/**
  The change-gated projection store (dashboard/src/data/store.ts) beside the plain store that
  always overwrites: over every sequence of snapshots and deltas they hold the same stable content,
  and the gate writes exactly when that content changes.
 */
module ProjectionStore {
  import opened ServedAges

  /** One arriving node with the key its collection files it under. */
  datatype Item = Item(key: string, node: Json)

  type Collection = map<string, Json>

  datatype Conn = Connecting | Live | SignalLost

  datatype CollectionName = Lifecycles | Enclosures | Providers

  datatype FieldName = Groups | Metrics | Analytics

  datatype Content = Content(
    lifecycles: Collection, enclosures: Collection, providers: Collection,
    groups: Json, closeoutQueues: Json, metrics: Json, analytics: Json, servingBuild: Json)

  datatype Store = Store(conn: Conn, content: Content)

  datatype Projection = Projection(
    lifecycles: seq<Item>, enclosures: seq<Item>, providers: seq<Item>,
    groups: Json, closeoutQueues: Json, metrics: Json, analytics: Json, servingBuild: Json)

  datatype Op =
    | Snapshot(projection: Projection)
    | Upserted(name: CollectionName, item: Item)
    | Removed(name: CollectionName, key: string)
    | Replaced(field: FieldName, value: Json)
    | UnknownDelta
    | SetConn(conn: Conn)
    | Reset

  const EMPTY := Content(map[], map[], map[], Arr([]), Arr([]), Null, Null, Null)

  function Keys(items: seq<Item>): set<string> {
    set item <- items :: item.key
  }

  predicate UniqueKeys(items: seq<Item>) {
    forall i, j :: 0 <= i < j < |items| ==> items[i].key != items[j].key
  }

  predicate Unchanged(existing: Collection, item: Item) {
    item.key in existing && StableEquals(existing[item.key], item.node)
  }

  /** The node that stays under the item's key: the stored one when nothing stable changed. */
  function Chosen(existing: Collection, item: Item): Json {
    if Unchanged(existing, item) then existing[item.key] else item.node
  }

  /** The merged map of the items, later ones winning; an unchanged node keeps its old value. */
  function Merged(existing: Collection, items: seq<Item>): Collection {
    if items == [] then map[]
    else
      var item := items[|items| - 1];
      Merged(existing, items[..|items| - 1])[item.key := Chosen(existing, item)]
  }

  /** `mergeKeyed` hands back the existing map object. */
  predicate KeepsMap(existing: Collection, items: seq<Item>) {
    (forall item <- items :: Unchanged(existing, item)) && |existing| == |items|
  }

  function MergeResult(existing: Collection, items: seq<Item>): Collection {
    if KeepsMap(existing, items) then existing else Merged(existing, items)
  }

  method MergeKeyed(existing: Collection, items: seq<Item>) returns (result: Collection, same: bool)
    ensures same <==> KeepsMap(existing, items)
    ensures result == MergeResult(existing, items)
  {
    var next: Collection := map[];
    var changed := false;
    for i := 0 to |items|
      invariant next == Merged(existing, items[..i])
      invariant changed <==> !(forall item <- items[..i] :: Unchanged(existing, item))
    {
      var item := items[i];
      MergedNext(existing, items, i);
      if Unchanged(existing, item) {
        next := next[item.key := existing[item.key]];
      } else {
        next := next[item.key := item.node];
        changed := true;
      }
    }
    assert items[..|items|] == items;
    same := !changed && |existing| == |items|;
    result := if same then existing else next;
  }

  lemma MergedNext(existing: Collection, items: seq<Item>, i: nat)
    requires i < |items|
    ensures Merged(existing, items[..i + 1]) == Merged(existing, items[..i])[items[i].key := Chosen(existing, items[i])]
    ensures forall item :: item in items[..i + 1] <==> item in items[..i] || item == items[i]
  {
    assert items[..i + 1][..i] == items[..i];
    assert items[..i + 1] == items[..i] + [items[i]];
  }

  /** The plain map: every item written, later ones winning. */
  function Plain(items: seq<Item>): Collection {
    if items == [] then map[]
    else Plain(items[..|items| - 1])[items[|items| - 1].key := items[|items| - 1].node]
  }

  function StripMap(c: Collection): Collection {
    map k | k in c :: Strip(c[k])
  }

  function Get(c: Content, name: CollectionName): Collection {
    match name
    case Lifecycles => c.lifecycles
    case Enclosures => c.enclosures
    case Providers => c.providers
  }

  function Put(c: Content, name: CollectionName, value: Collection): Content {
    match name
    case Lifecycles => c.(lifecycles := value)
    case Enclosures => c.(enclosures := value)
    case Providers => c.(providers := value)
  }

  function GetField(c: Content, field: FieldName): Json {
    match field
    case Groups => c.groups
    case Metrics => c.metrics
    case Analytics => c.analytics
  }

  function PutField(c: Content, field: FieldName, value: Json): Content {
    match field
    case Groups => c.(groups := value)
    case Metrics => c.(metrics := value)
    case Analytics => c.(analytics := value)
  }

  function Reuse(current: Json, incoming: Json): Json {
    if StableEquals(current, incoming) then current else incoming
  }

  function MergedContent(c: Content, p: Projection): Content {
    Content(
      MergeResult(c.lifecycles, p.lifecycles), MergeResult(c.enclosures, p.enclosures),
      MergeResult(c.providers, p.providers), Reuse(c.groups, p.groups), Reuse(c.closeoutQueues, p.closeoutQueues),
      Reuse(c.metrics, p.metrics), Reuse(c.analytics, p.analytics), Reuse(c.servingBuild, p.servingBuild))
  }

  /** `snapshotUnchanged`: every merged part is the very object the store already holds. */
  predicate SnapshotUnchanged(c: Content, p: Projection) {
    && KeepsMap(c.lifecycles, p.lifecycles) && KeepsMap(c.enclosures, p.enclosures)
    && KeepsMap(c.providers, p.providers) && StableEquals(c.groups, p.groups)
    && StableEquals(c.closeoutQueues, p.closeoutQueues) && StableEquals(c.metrics, p.metrics)
    && StableEquals(c.analytics, p.analytics) && StableEquals(c.servingBuild, p.servingBuild)
  }

  /** Whether the gated store writes at all for one operation. */
  predicate Writes(s: Store, op: Op) {
    match op
    case Snapshot(p) => !(SnapshotUnchanged(s.content, p) && s.conn.Live?)
    case Upserted(name, item) => !Unchanged(Get(s.content, name), item)
    case Removed(name, key) => key in Get(s.content, name)
    case Replaced(field, value) => !StableEquals(GetField(s.content, field), value)
    case UnknownDelta => false
    case SetConn(conn) => s.conn != conn
    case Reset => true
  }

  /** The gated store: what a write stores, and nothing when the gate is closed. */
  function Gated(s: Store, op: Op): Store {
    if !Writes(s, op) then s
    else match op
      case Snapshot(p) => Store(Live, MergedContent(s.content, p))
      case Upserted(name, item) => s.(content := Put(s.content, name, Get(s.content, name)[item.key := item.node]))
      case Removed(name, key) => s.(content := Put(s.content, name, Get(s.content, name) - {key}))
      case Replaced(field, value) => s.(content := PutField(s.content, field, value))
      case UnknownDelta => s
      case SetConn(conn) => s.(conn := conn)
      case Reset => s.(content := EMPTY)
  }

  /** The plain store that always overwrites. */
  function Ungated(s: Store, op: Op): Store {
    match op
    case Snapshot(p) =>
      Store(Live, Content(Plain(p.lifecycles), Plain(p.enclosures), Plain(p.providers),
                          p.groups, p.closeoutQueues, p.metrics, p.analytics, p.servingBuild))
    case Upserted(name, item) => s.(content := Put(s.content, name, Get(s.content, name)[item.key := item.node]))
    case Removed(name, key) => s.(content := Put(s.content, name, Get(s.content, name) - {key}))
    case Replaced(field, value) => s.(content := PutField(s.content, field, value))
    case UnknownDelta => s
    case SetConn(conn) => s.(conn := conn)
    case Reset => s.(content := EMPTY)
  }

  function StripContent(c: Content): Content {
    Content(StripMap(c.lifecycles), StripMap(c.enclosures), StripMap(c.providers), Strip(c.groups),
            Strip(c.closeoutQueues), Strip(c.metrics), Strip(c.analytics), Strip(c.servingBuild))
  }

  function StripStore(s: Store): Store {
    Store(s.conn, StripContent(s.content))
  }

  /** A snapshot names every node once. */
  predicate WellFormed(op: Op) {
    op.Snapshot? ==>
      UniqueKeys(op.projection.lifecycles) && UniqueKeys(op.projection.enclosures) && UniqueKeys(op.projection.providers)
  }

  function RunGated(s: Store, ops: seq<Op>): Store
    decreases |ops|
  {
    if ops == [] then s else RunGated(Gated(s, ops[0]), ops[1..])
  }

  function RunUngated(s: Store, ops: seq<Op>): Store
    decreases |ops|
  {
    if ops == [] then s else RunUngated(Ungated(s, ops[0]), ops[1..])
  }

  lemma StripPut(c: Collection, key: string, node: Json)
    ensures StripMap(c[key := node]) == StripMap(c)[key := Strip(node)]
    ensures StripMap(c - {key}) == StripMap(c) - {key}
  {}

  lemma ChosenStrips(existing: Collection, item: Item)
    ensures Strip(Chosen(existing, item)) == Strip(item.node)
  {
    if Unchanged(existing, item) { StableEqualsIsEqualStripped(existing[item.key], item.node); }
  }

  lemma {:induction false} MergedMatchesPlain(existing: Collection, items: seq<Item>)
    ensures Merged(existing, items).Keys == Plain(items).Keys == Keys(items)
    ensures StripMap(Merged(existing, items)) == StripMap(Plain(items))
  {
    if items != [] {
      var rest, item := items[..|items| - 1], items[|items| - 1];
      MergedMatchesPlain(existing, rest);
      assert items == rest + [item];
      ChosenStrips(existing, item);
      StripPut(Merged(existing, rest), item.key, Chosen(existing, item));
      StripPut(Plain(rest), item.key, item.node);
    }
  }

  lemma {:induction false} KeyCount(items: seq<Item>)
    requires UniqueKeys(items)
    ensures |Keys(items)| == |items|
  {
    if items != [] {
      var rest, item := items[..|items| - 1], items[|items| - 1];
      KeyCount(rest);
      assert items == rest + [item];
      assert Keys(items) == Keys(rest) + {item.key};
      assert item.key !in Keys(rest);
    }
  }

  /** When every node is stable-equal to the stored one, merging returns the stored values. */
  lemma {:induction false} MergedOfUnchanged(existing: Collection, items: seq<Item>)
    requires forall item <- items :: Unchanged(existing, item)
    ensures Merged(existing, items).Keys == Keys(items) <= existing.Keys
    ensures forall k <- Keys(items) :: Merged(existing, items)[k] == existing[k]
  {
    MergedMatchesPlain(existing, items);
    if items != [] {
      var rest, item := items[..|items| - 1], items[|items| - 1];
      assert items == rest + [item];
      assert item in items;
      MergedOfUnchanged(existing, rest);
    }
  }

  /**
    The merge agrees with the plain map exactly when the shortcut does not keep a map that has
    other keys than the snapshot.
   */
  lemma MergeAgreesExactlyWhen(existing: Collection, items: seq<Item>)
    ensures StripMap(MergeResult(existing, items)) == StripMap(Plain(items)) <==>
            !(KeepsMap(existing, items) && existing.Keys != Keys(items))
  {
    MergedMatchesPlain(existing, items);
    assert StripMap(Plain(items)).Keys == Keys(items);
    assert StripMap(existing).Keys == existing.Keys;
    if KeepsMap(existing, items) && existing.Keys == Keys(items) {
      MergedOfUnchanged(existing, items);
      assert existing == Merged(existing, items);
    }
  }

  /** With unique keys the shortcut is sound, so the merge always agrees. */
  lemma MergeAgreesOnUniqueKeys(existing: Collection, items: seq<Item>)
    requires UniqueKeys(items)
    ensures StripMap(MergeResult(existing, items)) == StripMap(Plain(items))
    ensures KeepsMap(existing, items) <==> StripMap(existing) == StripMap(Plain(items))
  {
    KeyCount(items);
    MergeAgreesExactlyWhen(existing, items);
    MergedMatchesPlain(existing, items);
    if KeepsMap(existing, items) {
      MergedOfUnchanged(existing, items);
      SubsetOfEqualSize(Keys(items), existing.Keys);
    }
    if StripMap(existing) == StripMap(Plain(items)) {
      assert existing.Keys == StripMap(existing).Keys == Keys(items);
      assert |existing| == |existing.Keys|;
      forall item <- items ensures Unchanged(existing, item) {
        assert item.key in Keys(items);
        PlainOfUnique(items, item);
        assert StripMap(existing)[item.key] == Strip(existing[item.key]);
        StableEqualsIsEqualStripped(existing[item.key], item.node);
      }
    }
  }

  lemma {:induction false} PlainOfUnique(items: seq<Item>, item: Item)
    requires UniqueKeys(items) && item in items
    ensures item.key in Plain(items) && Plain(items)[item.key] == item.node
  {
    var rest, last := items[..|items| - 1], items[|items| - 1];
    assert items == rest + [last];
    if item != last {
      PlainOfUnique(rest, item);
      assert item.key != last.key by {
        var k :| 0 <= k < |rest| && rest[k] == item;
        assert items[k].key != items[|items| - 1].key;
      }
    }
  }

  /** A repeated id defeats the shortcut: a node missing from the snapshot survives it. */
  lemma RepeatedIdKeepsAStaleNode()
    ensures
      var existing: Collection := map["a" := Null, "b" := Null];
      var items := [Item("a", Null), Item("a", Null)];
      && !UniqueKeys(items)
      && "b" in MergeResult(existing, items) && "b" !in Plain(items)
  {
    var existing: Collection := map["a" := Null, "b" := Null];
    var items := [Item("a", Null), Item("a", Null)];
    assert items[0].key == items[1].key;
    assert KeepsMap(existing, items) by { assert existing.Keys == {"a", "b"}; assert |existing.Keys| == 2; }
    MergedMatchesPlain(existing, items);
  }

  lemma ReuseStrips(current: Json, incoming: Json)
    ensures Strip(Reuse(current, incoming)) == Strip(incoming)
  {
    StableEqualsIsEqualStripped(current, incoming);
  }

  lemma SnapshotStrips(s: Store, p: Projection)
    requires WellFormed(Snapshot(p))
    ensures StripStore(Gated(s, Snapshot(p))) == StripStore(Ungated(s, Snapshot(p)))
    ensures SnapshotUnchanged(s.content, p) <==> StripContent(s.content) == StripContent(Ungated(s, Snapshot(p)).content)
  {
    MergeAgreesOnUniqueKeys(s.content.lifecycles, p.lifecycles);
    MergeAgreesOnUniqueKeys(s.content.enclosures, p.enclosures);
    MergeAgreesOnUniqueKeys(s.content.providers, p.providers);
    ReuseStrips(s.content.groups, p.groups);
    ReuseStrips(s.content.closeoutQueues, p.closeoutQueues);
    ReuseStrips(s.content.metrics, p.metrics);
    ReuseStrips(s.content.analytics, p.analytics);
    ReuseStrips(s.content.servingBuild, p.servingBuild);
    StableEqualsIsEqualStripped(s.content.groups, p.groups);
    StableEqualsIsEqualStripped(s.content.closeoutQueues, p.closeoutQueues);
    StableEqualsIsEqualStripped(s.content.metrics, p.metrics);
    StableEqualsIsEqualStripped(s.content.analytics, p.analytics);
    StableEqualsIsEqualStripped(s.content.servingBuild, p.servingBuild);
  }

  /** The node stored under a key of the snapshot: the old one while it is stable-equal, else the new one. */
  lemma {:induction false} MergedNode(existing: Collection, items: seq<Item>, item: Item)
    requires UniqueKeys(items) && item in items
    ensures item.key in Merged(existing, items)
    ensures Merged(existing, items)[item.key] ==
      if item.key in existing && StableEquals(existing[item.key], item.node) then existing[item.key] else item.node
  {
    var rest, last := items[..|items| - 1], items[|items| - 1];
    assert items == rest + [last];
    if item != last {
      MergedNode(existing, rest, item);
      var k :| 0 <= k < |rest| && rest[k] == item;
      assert items[k].key != items[|items| - 1].key;
    }
  }

  /** A snapshot keeps the stored value of every part that is stable-equal and takes the new value of the others. */
  lemma SnapshotReusesUnchangedParts(s: Store, p: Projection)
    requires Writes(s, Snapshot(p))
    ensures var c := Gated(s, Snapshot(p)).content;
      && c.groups == (if StableEquals(s.content.groups, p.groups) then s.content.groups else p.groups)
      && c.closeoutQueues ==
           (if StableEquals(s.content.closeoutQueues, p.closeoutQueues) then s.content.closeoutQueues else p.closeoutQueues)
      && c.metrics == (if StableEquals(s.content.metrics, p.metrics) then s.content.metrics else p.metrics)
      && c.analytics == (if StableEquals(s.content.analytics, p.analytics) then s.content.analytics else p.analytics)
      && c.servingBuild ==
           (if StableEquals(s.content.servingBuild, p.servingBuild) then s.content.servingBuild else p.servingBuild)
  {
  }

  /** Stripping commutes with reading and writing one collection or field. */
  lemma PutStrips(c: Content, name: CollectionName, value: Collection)
    ensures StripContent(Put(c, name, value)) == Put(StripContent(c), name, StripMap(value))
    ensures Get(StripContent(c), name) == StripMap(Get(c, name))
  {}

  lemma PutFieldStrips(c: Content, field: FieldName, value: Json)
    ensures StripContent(PutField(c, field, value)) == PutField(StripContent(c), field, Strip(value))
    ensures GetField(StripContent(c), field) == Strip(GetField(c, field))
  {}

  /** The plain operation on stable forms: what the rest of the proofs compute with. */
  function OnStable(c: Content, op: Op): Content
    requires op.Upserted? || op.Removed? || op.Replaced?
  {
    match op
    case Upserted(name, item) => Put(c, name, Get(c, name)[item.key := Strip(item.node)])
    case Removed(name, key) => Put(c, name, Get(c, name) - {key})
    case Replaced(field, value) => PutField(c, field, Strip(value))
  }

  lemma DeltaStrips(s: Store, op: Op)
    requires op.Upserted? || op.Removed? || op.Replaced?
    ensures StripStore(Ungated(s, op)) == Store(s.conn, OnStable(StripContent(s.content), op))
  {
    match op
    case Upserted(name, item) =>
      PutStrips(s.content, name, Get(s.content, name)[item.key := item.node]);
      StripPut(Get(s.content, name), item.key, item.node);
    case Removed(name, key) =>
      PutStrips(s.content, name, Get(s.content, name) - {key});
      StripPut(Get(s.content, name), key, Null);
    case Replaced(field, value) => PutFieldStrips(s.content, field, value);
  }

  lemma PutSame(c: Content, name: CollectionName, value: Collection)
    ensures Put(c, name, value) == c <==> value == Get(c, name)
  {}

  lemma PutFieldSame(c: Content, field: FieldName, value: Json)
    ensures PutField(c, field, value) == c <==> value == GetField(c, field)
  {}

  lemma UpsertSame(c: Collection, item: Item)
    ensures Unchanged(c, item) <==> StripMap(c)[item.key := Strip(item.node)] == StripMap(c)
  {
    var stripped := StripMap(c);
    if item.key in c {
      StableEqualsIsEqualStripped(c[item.key], item.node);
      assert stripped[item.key] == Strip(c[item.key]);
    }
    if stripped[item.key := Strip(item.node)] == stripped {
      assert item.key in stripped && stripped[item.key] == Strip(item.node);
    }
  }

  /** The gate opens exactly when the stable content or the connection state would change. */
  lemma GateOpensExactlyOnChange(s: Store, op: Op)
    requires WellFormed(op) && !op.Reset?
    ensures Writes(s, op) <==> StripStore(Ungated(s, op)) != StripStore(s)
  {
    var stable := StripContent(s.content);
    match op
    case Snapshot(p) => SnapshotStrips(s, p);
    case Upserted(name, item) =>
      DeltaStrips(s, op);
      UpsertSame(Get(s.content, name), item);
      PutStrips(s.content, name, map[]);
      PutSame(stable, name, Get(stable, name)[item.key := Strip(item.node)]);
    case Removed(name, key) =>
      DeltaStrips(s, op);
      PutStrips(s.content, name, map[]);
      PutSame(stable, name, Get(stable, name) - {key});
      if key !in Get(stable, name) { assert Get(stable, name) - {key} == Get(stable, name); }
    case Replaced(field, value) =>
      DeltaStrips(s, op);
      PutFieldStrips(s.content, field, Null);
      PutFieldSame(stable, field, Strip(value));
      StableEqualsIsEqualStripped(GetField(s.content, field), value);
    case _ =>
  }

  /** One operation: gated and plain store end on the same stable content. */
  lemma GateIsInvisible(s: Store, op: Op)
    requires WellFormed(op)
    ensures StripStore(Gated(s, op)) == StripStore(Ungated(s, op))
  {
    if op.Snapshot? {
      SnapshotStrips(s, op.projection);
    } else if !op.Reset? {
      GateOpensExactlyOnChange(s, op);
    }
  }

  lemma UngatedRespectsStrip(s: Store, t: Store, op: Op)
    requires StripStore(s) == StripStore(t)
    ensures StripStore(Ungated(s, op)) == StripStore(Ungated(t, op))
  {
    if op.Upserted? || op.Removed? || op.Replaced? {
      DeltaStrips(s, op);
      DeltaStrips(t, op);
    }
  }

  /** Over every run from a common stable content the two stores never differ in stable content. */
  lemma {:induction false} GatedRefinesUngated(s: Store, t: Store, ops: seq<Op>)
    requires StripStore(s) == StripStore(t)
    requires forall op <- ops :: WellFormed(op)
    ensures StripStore(RunGated(s, ops)) == StripStore(RunUngated(t, ops))
    decreases |ops|
  {
    if ops != [] {
      assert ops[0] in ops;
      GateIsInvisible(s, ops[0]);
      UngatedRespectsStrip(s, t, ops[0]);
      GatedRefinesUngated(Gated(s, ops[0]), Ungated(t, ops[0]), ops[1..]);
    }
  }

  /** The store object itself: `applySnapshot`, `applyDelta`, `setConn`, `reset`. */
  class DashboardStore {
    var conn: Conn
    var content: Content
    /** Store writes performed so far; each one re-renders its subscribers. */
    var writes: nat

    function View(): Store
      reads this
    {
      Store(conn, content)
    }

    constructor ()
      ensures View() == Store(Connecting, EMPTY) && writes == 0
    {
      conn, content, writes := Connecting, EMPTY, 0;
    }

    method ApplySnapshot(p: Projection)
      modifies this
      ensures View() == Gated(old(View()), Snapshot(p))
      ensures writes == old(writes) + if Writes(old(View()), Snapshot(p)) then 1 else 0
    {
      var lifecycles, sameLifecycles := MergeKeyed(content.lifecycles, p.lifecycles);
      var enclosures, sameEnclosures := MergeKeyed(content.enclosures, p.enclosures);
      var providers, sameProviders := MergeKeyed(content.providers, p.providers);
      var idle := sameLifecycles && sameEnclosures && sameProviders &&
                       StableEquals(content.groups, p.groups) && StableEquals(content.closeoutQueues, p.closeoutQueues) &&
                       StableEquals(content.metrics, p.metrics) && StableEquals(content.analytics, p.analytics) &&
                       StableEquals(content.servingBuild, p.servingBuild);
      if idle && conn.Live? { return; }
      content := Content(
        lifecycles, enclosures, providers, Reuse(content.groups, p.groups),
        Reuse(content.closeoutQueues, p.closeoutQueues), Reuse(content.metrics, p.metrics),
        Reuse(content.analytics, p.analytics), Reuse(content.servingBuild, p.servingBuild));
      conn := Live;
      writes := writes + 1;
    }

    method ApplyDelta(op: Op)
      requires op.Upserted? || op.Removed? || op.Replaced? || op.UnknownDelta?
      modifies this
      ensures View() == Gated(old(View()), op)
      ensures writes == old(writes) + if Writes(old(View()), op) then 1 else 0
    {
      match op
      case Upserted(name, item) =>
        var current := Get(content, name);
        if item.key in current && StableEquals(current[item.key], item.node) { return; }
        content := Put(content, name, current[item.key := item.node]);
        writes := writes + 1;
      case Removed(name, key) =>
        if key !in Get(content, name) { return; }
        content := Put(content, name, Get(content, name) - {key});
        writes := writes + 1;
      case Replaced(field, value) =>
        if StableEquals(GetField(content, field), value) { return; }
        content := PutField(content, field, value);
        writes := writes + 1;
      case UnknownDelta =>
    }

    method SetConnState(next: Conn)
      modifies this
      ensures View() == Gated(old(View()), SetConn(next))
      ensures writes == old(writes) + if old(conn) != next then 1 else 0
    {
      if conn != next {
        conn := next;
        writes := writes + 1;
      }
    }
  }
}
