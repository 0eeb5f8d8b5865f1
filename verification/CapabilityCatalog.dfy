/**
  The per-harness capability read of capabilityCatalog.ts: plain reads join whatever is in flight, a
  refresh joins only a refresh and is otherwise chained behind the plain read. Each step is the code
  between two awaits.
 */
module CapabilityCatalog {
  import opened Wrappers

  datatype Outcome = Envelope(body: string) | Failure(detail: string)

  /**
    The life of an in-flight record. A GET is Fetching, then Fetched once its result is written, then
    Done once its slot is released. A chained refresh is Behind a plain read, then Forwarded to the GET
    it started, or Revoked by a reset.
   */
  datatype Stage =
    | Fetching
    | Fetched(outcome: Outcome)
    | Done(outcome: Outcome)
    | Behind(plain: nat)
    | Forwarded(get: nat)
    | Revoked

  datatype Entry = Entry(harness: string, refresh: bool, generation: nat, stage: Stage)

  datatype FetchState = Idle | Loading | Refreshing | Errored(detail: string)

  datatype Cell = Cell(fetchState: FetchState, envelope: Option<string>)

  /** A caller holds the promise of one entry. */
  datatype Caller = Caller(harness: string, refresh: bool, entry: nat)

  datatype State = State(
    generation: nat,
    slot: map<string, nat>,
    entries: seq<Entry>,
    store: map<string, Cell>,
    callers: seq<Caller>)

  datatype Event =
    | Fetch(harness: string, refresh: bool)
    | Settle(entry: nat, outcome: Outcome)
    | Finish(entry: nat)
    | Continue(entry: nat)
    | Reset

  function Init(): State {
    State(0, map[], [], map[], [])
  }

  predicate IsGet(e: Entry) {
    e.stage.Fetching? || e.stage.Fetched? || e.stage.Done?
  }

  function CellOf(store: map<string, Cell>, h: string): Cell {
    if h in store then store[h] else Cell(Idle, None)
  }

  predicate Busy(store: map<string, Cell>, h: string) {
    CellOf(store, h).fetchState.Loading? || CellOf(store, h).fetchState.Refreshing?
  }

  function Landed(outcome: Outcome): Cell {
    match outcome
    case Envelope(body) => Cell(Idle, Some(body))
    case Failure(detail) => Cell(Errored(detail), None)
  }

  /** Start a GET and take the slot. */
  function StartGet(s: State, h: string, refresh: bool): State {
    var cell := CellOf(s.store, h);
    var state := if refresh || cell.envelope.Some? then Refreshing else Loading;
    s.(entries := s.entries + [Entry(h, refresh, s.generation, Fetching)],
       slot := s.slot[h := |s.entries|],
       store := s.store[h := Cell(state, cell.envelope)])
  }

  function Chain(s: State, h: string): State
    requires h in s.slot
  {
    s.(entries := s.entries + [Entry(h, true, s.generation, Behind(s.slot[h]))], slot := s.slot[h := |s.entries|])
  }

  function AddCaller(s: State, h: string, refresh: bool, entry: nat): State {
    s.(callers := s.callers + [Caller(h, refresh, entry)])
  }

  /** The slot of `h` without its owner, if `e` owns it. */
  function Freed(slot: map<string, nat>, h: string, e: nat): map<string, nat> {
    if h in slot && slot[h] == e then slot - {h} else slot
  }

  function SetStage(s: State, e: nat, stage: Stage): State
    requires e < |s.entries|
  {
    s.(entries := s.entries[e := s.entries[e].(stage := stage)])
  }

  predicate Possible(s: State, v: Event) {
    match v
    case Fetch(h, _) => true
    case Settle(e, _) => e < |s.entries| && s.entries[e].stage.Fetching?
    case Finish(e) => e < |s.entries| && s.entries[e].stage.Fetched?
    case Continue(e) =>
      && e < |s.entries| && s.entries[e].stage.Behind?
      && s.entries[e].stage.plain < |s.entries| && s.entries[s.entries[e].stage.plain].stage.Done?
    case Reset => true
  }

  function Fetches(s: State, h: string, refresh: bool): State
    requires SlotInv(s)
  {
    if h !in s.slot then AddCaller(StartGet(s, h, refresh), h, refresh, |s.entries|)
    else if !refresh || s.entries[s.slot[h]].refresh then AddCaller(s, h, refresh, s.slot[h])
    else AddCaller(Chain(s, h), h, refresh, |s.entries|)
  }

  function Settles(s: State, e: nat, outcome: Outcome): State
    requires e < |s.entries|
  {
    var it := s.entries[e];
    SetStage(s, e, Fetched(outcome)).(
      store := if it.generation == s.generation then s.store[it.harness := Landed(outcome)] else s.store)
  }

  function Finishes(s: State, e: nat): State
    requires e < |s.entries| && s.entries[e].stage.Fetched?
  {
    SetStage(s, e, Done(s.entries[e].stage.outcome)).(slot := Freed(s.slot, s.entries[e].harness, e))
  }

  function Continues(s: State, e: nat): State
    requires e < |s.entries|
  {
    var it := s.entries[e];
    var freed := s.(slot := Freed(s.slot, it.harness, e));
    if it.generation != s.generation then SetStage(freed, e, Revoked)
    else StartGet(SetStage(freed, e, Forwarded(|s.entries|)), it.harness, true)
  }

  function Step(s: State, v: Event): State
    requires SlotInv(s) && Possible(s, v)
  {
    match v
    case Fetch(h, refresh) => Fetches(s, h, refresh)
    case Settle(e, outcome) => Settles(s, e, outcome)
    case Finish(e) => Finishes(s, e)
    case Continue(e) => Continues(s, e)
    case Reset => s.(generation := s.generation + 1, slot := map[], store := map[])
  }

  // ---------------------------------------------------------------- invariants

  /** A slot is owned by an entry of its harness and of this generation that is still at work. */
  predicate SlotInv(s: State) {
    forall h <- s.slot ::
      && s.slot[h] < |s.entries|
      && s.entries[s.slot[h]].harness == h
      && s.entries[s.slot[h]].generation == s.generation
      && (s.entries[s.slot[h]].stage.Fetching? || s.entries[s.slot[h]].stage.Fetched? || s.entries[s.slot[h]].stage.Behind?)
  }

  predicate EntryInv(s: State, e: nat)
    requires e < |s.entries|
  {
    var it := s.entries[e];
    && it.generation <= s.generation
    && match it.stage
       case Fetching => it.generation == s.generation ==> Working(s, e)
       case Fetched(_) => it.generation == s.generation ==> Working(s, e)
       case Done(_) => true
       case Behind(plain) =>
         && it.refresh && plain < |s.entries| && IsGet(s.entries[plain]) && !s.entries[plain].refresh
         && s.entries[plain].harness == it.harness && s.entries[plain].generation == it.generation
         && (it.generation == s.generation ==> it.harness in s.slot && s.slot[it.harness] == e)
       case Forwarded(get) =>
         && it.refresh && get < |s.entries| && IsGet(s.entries[get]) && s.entries[get].refresh
         && s.entries[get].harness == it.harness
       case Revoked => it.refresh && it.generation < s.generation
  }

  /** A read of this generation owns its slot, or the slot's owner is chained behind it. */
  predicate Working(s: State, e: nat)
    requires e < |s.entries|
  {
    var h := s.entries[e].harness;
    h in s.slot && (s.slot[h] == e ||
      (s.slot[h] < |s.entries| && s.entries[s.slot[h]].stage == Behind(e) && !s.entries[e].refresh))
  }

  /** The slot's owner is fetching, or chained behind a read that is. */
  predicate Reading(s: State, h: string) {
    h in s.slot && s.slot[h] < |s.entries| && match s.entries[s.slot[h]].stage
      case Fetching => true
      case Behind(plain) => plain < |s.entries| && s.entries[plain].stage.Fetching?
      case _ => false
  }

  predicate CallerInv(s: State, c: Caller) {
    && c.entry < |s.entries| && s.entries[c.entry].harness == c.harness
    && (c.refresh ==> s.entries[c.entry].refresh)
  }

  ghost predicate Inv(s: State) {
    && SlotInv(s)
    && (forall e :: 0 <= e < |s.entries| ==> EntryInv(s, e))
    && (forall h: string :: Busy(s.store, h) <==> Reading(s, h))
    && (forall i :: 0 <= i < |s.callers| ==> CallerInv(s, s.callers[i]))
  }

  lemma StartGetKeepsInv(s: State, h: string, refresh: bool)
    requires Inv(s) && h !in s.slot
    ensures Inv(StartGet(s, h, refresh))
  {
    var t := StartGet(s, h, refresh);
    forall e | 0 <= e < |t.entries| ensures EntryInv(t, e) {
      if e < |s.entries| { assert EntryInv(s, e); }
    }
    forall k: string ensures Busy(t.store, k) <==> Reading(t, k) {
      assert Busy(s.store, k) <==> Reading(s, k);
      if k in s.slot { assert EntryInv(s, s.slot[k]); }
    }
    forall i | 0 <= i < |t.callers| ensures CallerInv(t, t.callers[i]) { assert CallerInv(s, s.callers[i]); }
  }

  lemma ChainKeepsInv(s: State, h: string)
    requires Inv(s) && h in s.slot && !s.entries[s.slot[h]].refresh
    ensures Inv(Chain(s, h))
  {
    var t, plain := Chain(s, h), s.slot[h];
    assert EntryInv(s, plain);
    forall e | 0 <= e < |t.entries| ensures EntryInv(t, e) {
      if e < |s.entries| { assert EntryInv(s, e); }
    }
    forall k: string ensures Busy(t.store, k) <==> Reading(t, k) {
      assert Busy(s.store, k) <==> Reading(s, k);
      if k in s.slot { assert EntryInv(s, s.slot[k]); }
    }
    forall i | 0 <= i < |t.callers| ensures CallerInv(t, t.callers[i]) { assert CallerInv(s, s.callers[i]); }
  }

  lemma AddCallerKeepsInv(s: State, h: string, refresh: bool, entry: nat)
    requires Inv(s) && CallerInv(s, Caller(h, refresh, entry))
    ensures Inv(AddCaller(s, h, refresh, entry))
  {
    var t := AddCaller(s, h, refresh, entry);
    forall e | 0 <= e < |t.entries| ensures EntryInv(t, e) { assert EntryInv(s, e); }
    forall k: string ensures Busy(t.store, k) <==> Reading(t, k) {
      assert Busy(s.store, k) <==> Reading(s, k);
      if k in s.slot { assert EntryInv(s, s.slot[k]); }
    }
    forall i | 0 <= i < |t.callers| ensures CallerInv(t, t.callers[i]) {
      if i < |s.callers| { assert CallerInv(s, s.callers[i]); }
    }
  }

  lemma FetchKeepsInv(s: State, h: string, refresh: bool)
    requires Inv(s)
    ensures Inv(Fetches(s, h, refresh))
  {
    if h !in s.slot {
      StartGetKeepsInv(s, h, refresh);
      AddCallerKeepsInv(StartGet(s, h, refresh), h, refresh, |s.entries|);
    } else if !refresh || s.entries[s.slot[h]].refresh {
      AddCallerKeepsInv(s, h, refresh, s.slot[h]);
    } else {
      ChainKeepsInv(s, h);
      AddCallerKeepsInv(Chain(s, h), h, refresh, |s.entries|);
    }
  }

  lemma SettleKeepsInv(s: State, n: nat, outcome: Outcome)
    requires Inv(s) && Possible(s, Settle(n, outcome))
    ensures Inv(Settles(s, n, outcome))
  {
    var t := Settles(s, n, outcome);
    assert EntryInv(s, n);
    forall e | 0 <= e < |t.entries| ensures EntryInv(t, e) { assert EntryInv(s, e); }
    forall k: string ensures Busy(t.store, k) <==> Reading(t, k) {
      assert Busy(s.store, k) <==> Reading(s, k);
      if k in s.slot { assert EntryInv(s, s.slot[k]); }
    }
    forall i | 0 <= i < |t.callers| ensures CallerInv(t, t.callers[i]) { assert CallerInv(s, s.callers[i]); }
  }

  lemma FinishKeepsInv(s: State, n: nat)
    requires Inv(s) && Possible(s, Finish(n))
    ensures Inv(Finishes(s, n))
  {
    var t := Finishes(s, n);
    assert EntryInv(s, n);
    forall e | 0 <= e < |t.entries| ensures EntryInv(t, e) { assert EntryInv(s, e); }
    forall k: string ensures Busy(t.store, k) <==> Reading(t, k) {
      assert Busy(s.store, k) <==> Reading(s, k);
      if k in s.slot { assert EntryInv(s, s.slot[k]); }
    }
    forall i | 0 <= i < |t.callers| ensures CallerInv(t, t.callers[i]) { assert CallerInv(s, s.callers[i]); }
  }

  lemma RevokeKeepsInv(s: State, n: nat)
    requires Inv(s) && Possible(s, Continue(n)) && s.entries[n].generation != s.generation
    ensures Inv(Continues(s, n))
  {
    var t := Continues(s, n);
    assert EntryInv(s, n);
    assert t.slot == s.slot;
    forall e | 0 <= e < |t.entries| ensures EntryInv(t, e) { assert EntryInv(s, e); }
    forall k: string ensures Busy(t.store, k) <==> Reading(t, k) {
      assert Busy(s.store, k) <==> Reading(s, k);
      if k in s.slot { assert EntryInv(s, s.slot[k]); }
    }
    forall i | 0 <= i < |t.callers| ensures CallerInv(t, t.callers[i]) { assert CallerInv(s, s.callers[i]); }
  }

  /** The chained refresh starts its own GET: the slot changes hands and the old entry points at the new. */
  lemma ForwardKeepsInv(s: State, n: nat)
    requires Inv(s) && Possible(s, Continue(n)) && s.entries[n].generation == s.generation
    ensures Inv(Continues(s, n))
  {
    var t, h := Continues(s, n), s.entries[n].harness;
    assert EntryInv(s, n);
    assert !Reading(s, h);
    assert t.slot == s.slot[h := |s.entries|];
    forall e | 0 <= e < |t.entries| ensures EntryInv(t, e) {
      if e < |s.entries| { assert EntryInv(s, e); }
    }
    forall k: string ensures Busy(t.store, k) <==> Reading(t, k) {
      assert Busy(s.store, k) <==> Reading(s, k);
      if k in s.slot { assert EntryInv(s, s.slot[k]); }
    }
    forall i | 0 <= i < |t.callers| ensures CallerInv(t, t.callers[i]) { assert CallerInv(s, s.callers[i]); }
  }

  lemma ResetKeepsInv(s: State)
    requires Inv(s)
    ensures Inv(Step(s, Reset))
  {
    var t := Step(s, Reset);
    forall e | 0 <= e < |t.entries| ensures EntryInv(t, e) { assert EntryInv(s, e); }
    forall i | 0 <= i < |t.callers| ensures CallerInv(t, t.callers[i]) { assert CallerInv(s, s.callers[i]); }
  }

  lemma StepKeepsInv(s: State, v: Event)
    requires Inv(s) && Possible(s, v)
    ensures Inv(Step(s, v))
  {
    match v
    case Fetch(h, refresh) => FetchKeepsInv(s, h, refresh);
    case Settle(e, outcome) => SettleKeepsInv(s, e, outcome);
    case Finish(e) => FinishKeepsInv(s, e);
    case Continue(e) => if s.entries[e].generation != s.generation { RevokeKeepsInv(s, e); } else { ForwardKeepsInv(s, e); }
    case Reset => ResetKeepsInv(s);
  }

  // ---------------------------------------------------------------- whole runs

  ghost predicate Run(states: seq<State>, events: seq<Event>) {
    && |states| == |events| + 1
    && states[0] == Init()
    && forall k :: 0 <= k < |events| ==>
         SlotInv(states[k]) && Possible(states[k], events[k]) && states[k + 1] == Step(states[k], events[k])
  }

  lemma {:induction false} RunKeepsInv(states: seq<State>, events: seq<Event>, k: nat)
    requires Run(states, events) && k < |states|
    ensures Inv(states[k])
  {
    if k > 0 {
      RunKeepsInv(states, events, k - 1);
      StepKeepsInv(states[k - 1], events[k - 1]);
      assert states[k - 1 + 1] == Step(states[k - 1], events[k - 1]);
    }
  }

  /** Between resets, a harness never has two GETs outstanding. */
  lemma OneGetOutstanding(states: seq<State>, events: seq<Event>, k: nat, a: nat, b: nat)
    requires Run(states, events) && k < |states|
    requires a < |states[k].entries| && b < |states[k].entries|
    requires states[k].entries[a].stage.Fetching? && states[k].entries[b].stage.Fetching?
    requires states[k].entries[a].generation == states[k].entries[b].generation == states[k].generation
    requires states[k].entries[a].harness == states[k].entries[b].harness
    ensures a == b
  {
    RunKeepsInv(states, events, k);
    assert EntryInv(states[k], a) && EntryInv(states[k], b);
  }

  predicate FetchingFor(s: State, h: string, e: nat) {
    && e < |s.entries| && s.entries[e].harness == h
    && s.entries[e].generation == s.generation && s.entries[e].stage.Fetching?
  }

  /** The rendered state says "loading" or "refreshing" exactly while a GET of this generation is out. */
  lemma BusyExactlyWhileFetching(states: seq<State>, events: seq<Event>, k: nat, h: string)
    requires Run(states, events) && k < |states|
    ensures Busy(states[k].store, h) <==> exists e :: FetchingFor(states[k], h, e)
  {
    RunKeepsInv(states, events, k);
    var s := states[k];
    if Reading(s, h) {
      assert EntryInv(s, s.slot[h]);
      assert FetchingFor(s, h, if s.entries[s.slot[h]].stage.Fetching? then s.slot[h] else s.entries[s.slot[h]].stage.plain);
    }
    if e :| FetchingFor(s, h, e) {
      assert EntryInv(s, e);
    }
  }

  /** The GET whose result the promise of an entry resolves to, once it does. */
  function AnsweringGet(s: State, e: nat): Option<nat>
    requires e < |s.entries|
  {
    match s.entries[e].stage
    case Fetching => Some(e)
    case Fetched(_) => Some(e)
    case Done(_) => Some(e)
    case Forwarded(get) => Some(get)
    case Behind(_) => None
    case Revoked => None
  }

  /**
    A caller that asked for a refresh is answered by a GET that carried it, even when a plain read was
    in flight; only a reset leaves it with the store's own entry.
   */
  lemma RefreshIsAnsweredByRefresh(states: seq<State>, events: seq<Event>, k: nat, i: nat)
    requires Run(states, events) && k < |states| && i < |states[k].callers| && states[k].callers[i].refresh
    ensures var s, c := states[k], states[k].callers[i];
      && c.entry < |s.entries|
      && match AnsweringGet(s, c.entry)
         case Some(get) =>
           get < |s.entries| && IsGet(s.entries[get]) && s.entries[get].refresh && s.entries[get].harness == c.harness
         case None =>
           s.entries[c.entry].stage.Behind? || s.entries[c.entry].generation < s.generation
  {
    RunKeepsInv(states, events, k);
    var s, c := states[k], states[k].callers[i];
    assert CallerInv(s, c);
    assert EntryInv(s, c.entry);
  }

  /** Only its owner, a refresh chained behind it or a reset takes a slot from an entry. */
  lemma SlotIsReleasedByItsOwner(states: seq<State>, events: seq<Event>, k: nat, h: string)
    requires Run(states, events) && k < |events| && h in states[k].slot
    requires h !in states[k + 1].slot || states[k + 1].slot[h] != states[k].slot[h]
    ensures var owner := states[k].slot[h];
      || events[k] == Finish(owner)
      || events[k] == Continue(owner)
      || (events[k] == Fetch(h, true) && !states[k].entries[owner].refresh)
      || events[k] == Reset
  {
    RunKeepsInv(states, events, k);
    var s, v := states[k], events[k];
    assert states[k + 1] == Step(s, v);
    if v.Continue? { assert EntryInv(s, v.entry); }
  }

  /** A call is handed one entry: the one in flight, a refresh chained behind it, or the read it starts. */
  lemma FetchHandsOutOneEntry(s: State, h: string, refresh: bool)
    requires Inv(s)
    ensures var t := Step(s, Fetch(h, refresh));
      && |t.callers| == |s.callers| + 1 && t.callers[..|s.callers|] == s.callers
      && var c := t.callers[|s.callers|];
      && c.harness == h && c.refresh == refresh
      && if h in s.slot && (!refresh || s.entries[s.slot[h]].refresh)
         then t == s.(callers := t.callers) && c.entry == s.slot[h]
         else
           && c.entry == |s.entries| && |t.entries| == |s.entries| + 1 && t.entries[..|s.entries|] == s.entries
           && h in t.slot && t.slot[h] == c.entry
           && t.entries[c.entry] ==
                Entry(h, refresh, s.generation, if h in s.slot then Behind(s.slot[h]) else Fetching)
  {
  }

  /** A read that starts shows "refreshing" over a snapshot or on demand, else "loading", and keeps the snapshot. */
  lemma StartedReadShows(s: State, h: string, refresh: bool)
    requires Inv(s) && h !in s.slot
    ensures var before, after := CellOf(s.store, h), CellOf(Step(s, Fetch(h, refresh)).store, h);
      && after.envelope == before.envelope
      && after.fetchState == if refresh || before.envelope.Some? then Refreshing else Loading
  {
  }

  /** A read that returns in its own generation shows its envelope, or its error and no envelope. */
  lemma ReturnedReadShows(s: State, e: nat, outcome: Outcome)
    requires Inv(s) && Possible(s, Settle(e, outcome)) && s.entries[e].generation == s.generation
    ensures var after := CellOf(Step(s, Settle(e, outcome)).store, s.entries[e].harness);
      match outcome
      case Envelope(body) => after.fetchState.Idle? && after.envelope == Some(body)
      case Failure(detail) => after.fetchState == Errored(detail) && after.envelope.None?
  {
  }

  /** A reset empties slots and catalog and revokes all entries. */
  lemma ResetRevokesAll(s: State)
    requires Inv(s)
    ensures var t := Step(s, Reset);
      && t.slot == map[] && t.store == map[] && t.entries == s.entries && t.callers == s.callers
      && forall e <- t.entries :: e.generation < t.generation
  {
    forall e <- s.entries ensures e.generation < s.generation + 1 {
      var i :| 0 <= i < |s.entries| && s.entries[i] == e;
      assert EntryInv(s, i);
    }
  }

  /** A result that comes back after a reset leaves the rendered catalog alone. */
  lemma RevokedResultsAreDropped(s: State, v: Event)
    requires Inv(s) && Possible(s, v) && !v.Reset? && !v.Fetch?
    requires s.entries[v.entry].generation != s.generation
    ensures Step(s, v).store == s.store && Step(s, v).slot == s.slot
    ensures |Step(s, v).entries| == |s.entries|
  {
    assert EntryInv(s, v.entry);
  }

  // ---------------------------------------------------------------- the module's own variables

  /** `entries` and `callers` stand for the promises behind the in-flight map. */
  class CapabilityClient {
    var generation: nat
    var inflight: map<string, nat>
    var entries: seq<Entry>
    var store: map<string, Cell>
    var callers: seq<Caller>

    function View(): State
      reads this
    {
      State(generation, inflight, entries, store, callers)
    }

    constructor ()
      ensures View() == Init() && Inv(View())
    {
      generation, inflight, entries, store, callers := 0, map[], [], map[], [];
    }

    method Begin(h: string, refresh: bool)
      modifies this
      ensures View() == StartGet(old(View()), h, refresh)
    {
      var cell := CellOf(store, h);
      store := store[h := Cell(if refresh || cell.envelope.Some? then Refreshing else Loading, cell.envelope)];
      inflight := inflight[h := |entries|];
      entries := entries + [Entry(h, refresh, generation, Fetching)];
    }

    /** `fetchHarnessCapabilities`, up to its promise. */
    method FetchHarness(h: string, refresh: bool) returns (promise: nat)
      requires Inv(View())
      modifies this
      ensures View() == Step(old(View()), Fetch(h, refresh)) && Inv(View())
      ensures callers == old(callers) + [Caller(h, refresh, promise)]
    {
      StepKeepsInv(View(), Fetch(h, refresh));
      if h in inflight {
        var pending := inflight[h];
        promise := pending;
        if refresh && !entries[pending].refresh {
          promise := |entries|;
          entries := entries + [Entry(h, true, generation, Behind(pending))];
          inflight := inflight[h := promise];
        }
      } else {
        promise := |entries|;
        Begin(h, refresh);
      }
      callers := callers + [Caller(h, refresh, promise)];
    }

    /** The read returns: its result is written unless a reset revoked it. */
    method ReadSettles(e: nat, outcome: Outcome)
      requires Inv(View()) && Possible(View(), Settle(e, outcome))
      modifies this
      ensures View() == Step(old(View()), Settle(e, outcome)) && Inv(View())
    {
      StepKeepsInv(View(), Settle(e, outcome));
      if entries[e].generation == generation { store := store[entries[e].harness := Landed(outcome)]; }
      entries := entries[e := entries[e].(stage := Fetched(outcome))];
    }

    /** The identity-guarded release. */
    method ReadFinishes(e: nat)
      requires Inv(View()) && Possible(View(), Finish(e))
      modifies this
      ensures View() == Step(old(View()), Finish(e)) && Inv(View())
    {
      StepKeepsInv(View(), Finish(e));
      var h := entries[e].harness;
      entries := entries[e := entries[e].(stage := Done(entries[e].stage.outcome))];
      if h in inflight && inflight[h] == e { inflight := inflight - {h}; }
    }

    /** The chained refresh, once the plain read it waited for is done. */
    method ChainContinues(e: nat)
      requires Inv(View()) && Possible(View(), Continue(e))
      modifies this
      ensures View() == Step(old(View()), Continue(e)) && Inv(View())
    {
      StepKeepsInv(View(), Continue(e));
      var h := entries[e].harness;
      if h in inflight && inflight[h] == e { inflight := inflight - {h}; }
      if entries[e].generation != generation {
        entries := entries[e := entries[e].(stage := Revoked)];
      } else {
        entries := entries[e := entries[e].(stage := Forwarded(|entries|))];
        Begin(h, true);
      }
    }

    method ResetForDev()
      requires Inv(View())
      modifies this
      ensures View() == Step(old(View()), Reset) && Inv(View())
    {
      StepKeepsInv(View(), Reset);
      generation := generation + 1;
      inflight, store := map[], map[];
    }
  }
}
