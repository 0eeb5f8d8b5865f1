/**
  The spawn-edge forest of railModel.ts, over arbitrary and possibly cyclic spawn edges. Session
  ids are unique; `le` stands for the locale comparison of ids.
 */
module SpawnTree {
  import opened Wrappers
  import opened Sessions
  import opened Sorting

  datatype Row = Row(session: Session, depth: nat)

  /** A list of rows to which every id belongs at most once. */
  type Rows = v: seq<Session> | UniqueSessionIds(v)

  predicate HasId(v: seq<Session>, id: string) {
    exists s <- v :: s.id == id
  }

  /** The session hangs under another visible one; an empty parent id counts as none. */
  predicate HasParent(v: seq<Session>, s: Session) {
    s.spawnedBy.Some? && s.spawnedBy.value != "" && HasId(v, s.spawnedBy.value)
  }

  predicate IsParent(v: seq<Session>, p: Session, s: Session) {
    p in v && HasParent(v, s) && s.spawnedBy.value == p.id
  }

  function ParentOf(v: Rows, s: Session): (p: Session)
    requires HasParent(v, s)
    ensures IsParent(v, p, s)
  {
    ParentIsUnique(v, s);
    var p :| p in v && p.id == s.spawnedBy.value;
    p
  }

  lemma ParentIsUnique(v: Rows, s: Session)
    ensures forall p, q :: IsParent(v, p, s) && IsParent(v, q, s) ==> p == q
  {
    forall p, q | IsParent(v, p, s) && IsParent(v, q, s) ensures p == q {
      var i :| 0 <= i < |v| && v[i] == p;
      var j :| 0 <= j < |v| && v[j] == q;
    }
  }

  /** The parent chain of `s` reaches a root in exactly `d` steps. */
  predicate AtDepth(v: Rows, s: Session, d: nat)
    decreases d
  {
    if d == 0 then !HasParent(v, s) else HasParent(v, s) && AtDepth(v, ParentOf(v, s), d - 1)
  }

  /** `top` is the `n`-th ancestor of `s`. */
  predicate Descends(v: Rows, s: Session, n: nat, top: Session)
    decreases n
  {
    if n == 0 then s == top else HasParent(v, s) && Descends(v, ParentOf(v, s), n - 1, top)
  }

  /** The sessions on the way from `s` up to its root. */
  function Chain(v: Rows, s: Session, d: nat): set<Session>
    requires AtDepth(v, s, d)
    decreases d
  {
    if d == 0 then {s} else {s} + Chain(v, ParentOf(v, s), d - 1)
  }

  lemma {:induction false} DepthIsUnique(v: Rows, s: Session, i: nat, j: nat)
    requires AtDepth(v, s, i) && AtDepth(v, s, j)
    ensures i == j
    decreases i
  {
    if i > 0 && j > 0 { DepthIsUnique(v, ParentOf(v, s), i - 1, j - 1); }
  }

  ghost predicate NoDeeper(v: Rows, s: Session, d: int) {
    exists k: nat :: k <= d && AtDepth(v, s, k)
  }

  lemma {:induction false} ChainMember(v: Rows, s: Session, d: nat, x: Session)
    requires s in v && AtDepth(v, s, d) && x in Chain(v, s, d)
    ensures x in v && NoDeeper(v, x, d)
    decreases d
  {
    if x == s {
      assert AtDepth(v, s, d);
    } else {
      ChainMember(v, ParentOf(v, s), d - 1, x);
      var k: nat :| k <= d - 1 && AtDepth(v, x, k);
    }
  }

  lemma {:induction false} ChainSize(v: Rows, s: Session, d: nat)
    requires s in v && AtDepth(v, s, d)
    ensures |Chain(v, s, d)| == d + 1
    decreases d
  {
    if d > 0 {
      var p := ParentOf(v, s);
      ChainSize(v, p, d - 1);
      if s in Chain(v, p, d - 1) {
        ChainMember(v, p, d - 1, s);
        var k: nat :| k <= d - 1 && AtDepth(v, s, k);
        DepthIsUnique(v, s, k, d);
      }
    }
  }

  lemma {:induction false} SetOfSeqIsSmall(v: seq<Session>, x: set<Session>)
    requires forall s <- x :: s in v
    ensures |x| <= |v|
  {
    if v == [] {
      assert x == {};
    } else {
      SetOfSeqIsSmall(v[1..], x - {v[0]});
    }
  }

  /** However the spawn edges run, a chain that ends ends within the number of sessions. */
  lemma DepthIsBounded(v: Rows, s: Session, d: nat)
    requires s in v && AtDepth(v, s, d)
    ensures d < |v|
  {
    ChainSize(v, s, d);
    forall x <- Chain(v, s, d) ensures x in v { ChainMember(v, s, d, x); }
    SetOfSeqIsSmall(v, Chain(v, s, d));
  }

  /** The entries of `byParent` for one id, in the order they were pushed. */
  function ChildrenOf(all: seq<Session>, v: seq<Session>, id: string): seq<Session> {
    if v == [] then []
    else ChildrenOf(all, v[..|v| - 1], id) +
         if HasParent(all, v[|v| - 1]) && v[|v| - 1].spawnedBy.value == id then [v[|v| - 1]] else []
  }

  function Roots(all: seq<Session>, v: seq<Session>): seq<Session> {
    if v == [] then []
    else Roots(all, v[..|v| - 1]) + if HasParent(all, v[|v| - 1]) then [] else [v[|v| - 1]]
  }

  lemma {:induction false} ChildrenMembers(all: seq<Session>, v: seq<Session>, id: string)
    ensures forall s :: s in ChildrenOf(all, v, id) <==> s in v && HasParent(all, s) && s.spawnedBy.value == id
  {
    if v != [] {
      ChildrenMembers(all, v[..|v| - 1], id);
      assert forall s :: s in v <==> s == v[|v| - 1] || s in v[..|v| - 1];
    }
  }

  lemma {:induction false} RootsMembers(all: seq<Session>, v: seq<Session>)
    ensures forall s :: s in Roots(all, v) <==> s in v && !HasParent(all, s)
  {
    if v != [] {
      RootsMembers(all, v[..|v| - 1]);
      assert forall s :: s in v <==> s == v[|v| - 1] || s in v[..|v| - 1];
    }
  }

  function Children(v: Rows, s: Session, le: (Session, Session) -> bool): (c: seq<Session>)
    requires s in v
    ensures forall x :: x in c <==> x in v && IsParent(v, s, x)
  {
    ChildrenMembers(v, v, s.id);
    SortKeeps(ChildrenOf(v, v, s.id), le);
    SortBy(ChildrenOf(v, v, s.id), le)
  }

  predicate AllAtDepth(v: Rows, list: seq<Session>, d: nat) {
    forall s <- list :: s in v && AtDepth(v, s, d)
  }

  lemma ChildrenAtDepth(v: Rows, s: Session, d: nat, le: (Session, Session) -> bool)
    requires s in v && AtDepth(v, s, d)
    ensures AllAtDepth(v, Children(v, s, le), d + 1)
  {
    forall c <- Children(v, s, le) ensures AtDepth(v, c, d + 1) {
      ParentIsUnique(v, c);
      assert ParentOf(v, c) == s;
    }
  }

  /** The rows `emit` pushes for one session: itself, then its children's rows in order. */
  function Emit(v: Rows, s: Session, d: nat, le: (Session, Session) -> bool): seq<Row>
    requires s in v && AtDepth(v, s, d)
    decreases |v| - d, 0
  {
    DepthIsBounded(v, s, d);
    ChildrenAtDepth(v, s, d, le);
    [Row(s, d)] + EmitAll(v, Children(v, s, le), d + 1, le)
  }

  function EmitAll(v: Rows, list: seq<Session>, d: nat, le: (Session, Session) -> bool): seq<Row>
    requires AllAtDepth(v, list, d) && d <= |v|
    decreases |v| - d, |list|
  {
    if list == [] then [] else Emit(v, list[0], d, le) + EmitAll(v, list[1..], d, le)
  }

  lemma RootsAtDepth(v: Rows, le: (Session, Session) -> bool)
    ensures AllAtDepth(v, SortBy(Roots(v, v), le), 0)
  {
    RootsMembers(v, v);
    SortKeeps(Roots(v, v), le);
  }

  /** `buildSpawnTree` on the visible sessions. */
  function Tree(v: Rows, le: (Session, Session) -> bool): seq<Row> {
    RootsAtDepth(v, le);
    EmitAll(v, SortBy(Roots(v, v), le), 0, le)
  }

  /** Index `i` of a preorder: its nearest earlier row of smaller depth is its parent, one level up. */
  predicate UnderParent(v: Rows, rows: seq<Row>, i: nat)
    requires i < |rows|
  {
    exists j :: 0 <= j < i && IsParent(v, rows[j].session, rows[i].session) && rows[j].depth + 1 == rows[i].depth &&
      forall k :: j < k < i ==> rows[k].depth > rows[j].depth
  }

  /** What holds of the rows emitted for a whole list of siblings at depth `d`. */
  ghost predicate WellNested(v: Rows, rows: seq<Row>, d: nat) {
    && (forall i :: 0 <= i < |rows| ==> rows[i].depth >= d)
    && (forall i :: 0 <= i < |rows| ==> rows[i].depth == d || UnderParent(v, rows, i))
  }

  lemma ConcatUnderParent(v: Rows, a: seq<Row>, b: seq<Row>, i: nat)
    requires i < |a| + |b|
    requires i < |a| ==> UnderParent(v, a, i)
    requires i >= |a| ==> UnderParent(v, b, i - |a|)
    ensures UnderParent(v, a + b, i)
  {
    var rows := a + b;
    if i < |a| {
      var j :| 0 <= j < i && IsParent(v, a[j].session, a[i].session) && a[j].depth + 1 == a[i].depth &&
        forall k :: j < k < i ==> a[k].depth > a[j].depth;
      assert IsParent(v, rows[j].session, rows[i].session);
    } else {
      var m := i - |a|;
      var j :| 0 <= j < m && IsParent(v, b[j].session, b[m].session) && b[j].depth + 1 == b[m].depth &&
        forall k :: j < k < m ==> b[k].depth > b[j].depth;
      assert IsParent(v, rows[|a| + j].session, rows[i].session);
      assert forall k :: |a| + j < k < i ==> rows[k] == b[k - |a|];
    }
  }

  lemma ConcatNested(v: Rows, a: seq<Row>, b: seq<Row>, d: nat)
    requires WellNested(v, a, d) && WellNested(v, b, d)
    ensures WellNested(v, a + b, d)
  {
    var rows := a + b;
    forall i | 0 <= i < |rows| ensures rows[i].depth == d || UnderParent(v, rows, i) {
      if rows[i].depth != d { ConcatUnderParent(v, a, b, i); }
    }
  }

  /** Rows one level down, put after their common parent, are nested one level up. */
  lemma PushDown(v: Rows, s: Session, d: nat, below: seq<Row>)
    requires s in v && WellNested(v, below, d + 1)
    requires forall i :: 0 <= i < |below| && below[i].depth == d + 1 ==> IsParent(v, s, below[i].session)
    ensures WellNested(v, [Row(s, d)] + below, d)
  {
    var rows := [Row(s, d)] + below;
    assert forall k :: 1 <= k < |rows| ==> rows[k] == below[k - 1];
    forall i | 0 <= i < |rows| ensures rows[i].depth >= d && (rows[i].depth == d || UnderParent(v, rows, i)) {
      if i > 0 { PushedDown(v, s, d, below, i - 1); }
    }
  }

  lemma PushedDown(v: Rows, s: Session, d: nat, below: seq<Row>, m: nat)
    requires s in v && WellNested(v, below, d + 1) && m < |below|
    requires below[m].depth == d + 1 ==> IsParent(v, s, below[m].session)
    ensures UnderParent(v, [Row(s, d)] + below, m + 1)
  {
    var rows := [Row(s, d)] + below;
    if below[m].depth == d + 1 {
      assert IsParent(v, rows[0].session, rows[m + 1].session);
      assert forall k :: 0 < k < m + 1 ==> rows[k] == below[k - 1];
    } else {
      ConcatUnderParent(v, [Row(s, d)], below, m + 1);
    }
  }

  /** The rows at the top level of a sibling list are the siblings themselves, in order. */
  function TopLevel(rows: seq<Row>, d: nat): seq<Session> {
    if rows == [] then [] else Kept(rows[0], d) + TopLevel(rows[1..], d)
  }

  function Kept(row: Row, d: nat): seq<Session> {
    if row.depth == d then [row.session] else []
  }

  lemma {:induction false} TopLevelConcat(a: seq<Row>, b: seq<Row>, d: nat)
    ensures TopLevel(a + b, d) == TopLevel(a, d) + TopLevel(b, d)
  {
    if a == [] {
      assert a + b == b;
    } else {
      TopLevelConcat(a[1..], b, d);
      HeadOfConcat(a, b);
      ConcatAssociates(Kept(a[0], d), TopLevel(a[1..], d), TopLevel(b, d));
    }
  }

  lemma HeadOfConcat<T>(a: seq<T>, b: seq<T>)
    requires a != []
    ensures (a + b)[0] == a[0] && (a + b)[1..] == a[1..] + b
  {
  }

  lemma ConcatAssociates<T>(a: seq<T>, b: seq<T>, c: seq<T>)
    ensures a + (b + c) == (a + b) + c
  {
  }

  lemma {:induction false} TopLevelOfDeeper(rows: seq<Row>, d: nat)
    requires forall i :: 0 <= i < |rows| ==> rows[i].depth > d
    ensures TopLevel(rows, d) == []
  {
    if rows != [] { TopLevelOfDeeper(rows[1..], d); }
  }

  lemma {:induction false} TopLevelMembers(rows: seq<Row>, d: nat, i: nat)
    requires i < |rows| && rows[i].depth == d
    ensures rows[i].session in TopLevel(rows, d)
  {
    if i > 0 { TopLevelMembers(rows[1..], d, i - 1); }
  }

  lemma {:induction false} EmitNested(v: Rows, s: Session, d: nat, le: (Session, Session) -> bool)
    requires s in v && AtDepth(v, s, d)
    ensures WellNested(v, Emit(v, s, d, le), d)
    ensures TopLevel(Emit(v, s, d, le), d) == [s]
    decreases |v| - d, 0
  {
    DepthIsBounded(v, s, d);
    ChildrenAtDepth(v, s, d, le);
    var children := Children(v, s, le);
    var below := EmitAll(v, children, d + 1, le);
    EmitAllNested(v, children, d + 1, le);
    forall i | 0 <= i < |below| && below[i].depth == d + 1 ensures IsParent(v, s, below[i].session) {
      TopLevelMembers(below, d + 1, i);
    }
    PushDown(v, s, d, below);
    TopLevelOfDeeper(below, d);
    TopLevelConcat([Row(s, d)], below, d);
  }

  lemma JoinBlocks(v: Rows, s: Session, rest: seq<Session>, a: seq<Row>, b: seq<Row>, d: nat)
    requires WellNested(v, a, d) && WellNested(v, b, d)
    requires TopLevel(a, d) == [s] && TopLevel(b, d) == rest
    ensures WellNested(v, a + b, d)
    ensures TopLevel(a + b, d) == [s] + rest
  {
    ConcatNested(v, a, b, d);
    TopLevelConcat(a, b, d);
  }

  lemma {:induction false} EmitAllNested(v: Rows, list: seq<Session>, d: nat, le: (Session, Session) -> bool)
    requires AllAtDepth(v, list, d) && d <= |v|
    ensures WellNested(v, EmitAll(v, list, d, le), d)
    ensures TopLevel(EmitAll(v, list, d, le), d) == list
    decreases |v| - d, |list|
  {
    if list != [] {
      EmitNested(v, list[0], d, le);
      EmitAllNested(v, list[1..], d, le);
      JoinBlocks(v, list[0], list[1..], Emit(v, list[0], d, le), EmitAll(v, list[1..], d, le), d);
      assert list == [list[0]] + list[1..];
    }
  }

  lemma {:induction false} AncestorIsUnique(v: Rows, s: Session, n: nat, p: Session, q: Session)
    requires Descends(v, s, n, p) && Descends(v, s, n, q)
    ensures p == q
    decreases n
  {
    if n > 0 { AncestorIsUnique(v, ParentOf(v, s), n - 1, p, q); }
  }

  lemma {:induction false} DescendsFurther(v: Rows, s: Session, n: nat, top: Session)
    requires Descends(v, s, n, top) && HasParent(v, top)
    ensures Descends(v, s, n + 1, ParentOf(v, top))
    decreases n
  {
    if n > 0 { DescendsFurther(v, ParentOf(v, s), n - 1, top); }
  }

  /** What a row below `s` at depth `d` satisfies. */
  predicate Below(v: Rows, row: Row, s: Session, d: nat) {
    && row.session in v
    && row.depth >= d
    && AtDepth(v, row.session, row.depth)
    && Descends(v, row.session, row.depth - d, s)
  }

  predicate BelowSome(v: Rows, row: Row, list: seq<Session>, d: nat) {
    exists s <- list :: Below(v, row, s, d)
  }

  lemma {:induction false} EmitBelow(v: Rows, s: Session, d: nat, le: (Session, Session) -> bool, row: Row)
    requires s in v && AtDepth(v, s, d) && row in Emit(v, s, d, le)
    ensures Below(v, row, s, d)
    decreases |v| - d, 0
  {
    DepthIsBounded(v, s, d);
    ChildrenAtDepth(v, s, d, le);
    var children := Children(v, s, le);
    if row != Row(s, d) {
      InTail(Row(s, d), EmitAll(v, children, d + 1, le), row);
      EmitAllBelow(v, children, d + 1, le, row);
      var c :| c in children && Below(v, row, c, d + 1);
      BelowParent(v, row, c, s, d);
    }
  }

  lemma BelowParent(v: Rows, row: Row, c: Session, s: Session, d: nat)
    requires Below(v, row, c, d + 1) && IsParent(v, s, c)
    ensures Below(v, row, s, d)
  {
    DescendsFurther(v, row.session, row.depth - (d + 1), c);
    ParentIsUnique(v, c);
  }

  lemma InTail<T>(head: T, tail: seq<T>, x: T)
    requires x in [head] + tail && x != head
    ensures x in tail
  {
  }

  lemma {:induction false} EmitAllBelow(
    v: Rows, list: seq<Session>, d: nat, le: (Session, Session) -> bool, row: Row)
    requires AllAtDepth(v, list, d) && d <= |v| && row in EmitAll(v, list, d, le)
    ensures BelowSome(v, row, list, d)
    decreases |v| - d, |list|
  {
    if row in Emit(v, list[0], d, le) {
      EmitBelow(v, list[0], d, le, row);
    } else {
      EmitAllBelow(v, list[1..], d, le, row);
      var s :| s in list[1..] && Below(v, row, s, d);
      assert s in list;
    }
  }

  lemma {:induction false} ListIsEmitted(
    v: Rows, list: seq<Session>, d: nat, le: (Session, Session) -> bool, s: Session)
    requires AllAtDepth(v, list, d) && d <= |v| && s in list
    ensures Row(s, d) in EmitAll(v, list, d, le)
    decreases |list|
  {
    if s == list[0] {
      assert Emit(v, s, d, le)[0] == Row(s, d);
    } else {
      ListIsEmitted(v, list[1..], d, le, s);
    }
  }

  /** Emitted rows are closed under taking children. */
  lemma {:induction false} EmitClosed(
    v: Rows, s: Session, d: nat, le: (Session, Session) -> bool, p: Session, e: nat, c: Session)
    requires s in v && AtDepth(v, s, d) && Row(p, e) in Emit(v, s, d, le)
    requires c in v && IsParent(v, p, c)
    ensures Row(c, e + 1) in Emit(v, s, d, le)
    decreases |v| - d, 0
  {
    DepthIsBounded(v, s, d);
    ChildrenAtDepth(v, s, d, le);
    var children := Children(v, s, le);
    if Row(p, e) == Row(s, d) {
      ListIsEmitted(v, children, d + 1, le, c);
    } else {
      InTail(Row(s, d), EmitAll(v, children, d + 1, le), Row(p, e));
      EmitAllClosed(v, children, d + 1, le, p, e, c);
    }
  }

  lemma {:induction false} EmitAllClosed(
    v: Rows, list: seq<Session>, d: nat, le: (Session, Session) -> bool, p: Session, e: nat, c: Session)
    requires AllAtDepth(v, list, d) && d <= |v| && Row(p, e) in EmitAll(v, list, d, le)
    requires c in v && IsParent(v, p, c)
    ensures Row(c, e + 1) in EmitAll(v, list, d, le)
    decreases |v| - d, |list|
  {
    if Row(p, e) in Emit(v, list[0], d, le) {
      EmitClosed(v, list[0], d, le, p, e, c);
    } else {
      EmitAllClosed(v, list[1..], d, le, p, e, c);
    }
  }

  lemma {:induction false} ReachableIsEmitted(v: Rows, s: Session, d: nat, le: (Session, Session) -> bool)
    requires s in v && AtDepth(v, s, d)
    ensures Row(s, d) in Tree(v, le)
    decreases d
  {
    RootsAtDepth(v, le);
    var roots := SortBy(Roots(v, v), le);
    if d == 0 {
      RootsMembers(v, v);
      SortKeeps(Roots(v, v), le);
      ListIsEmitted(v, roots, 0, le, s);
    } else {
      ReachableIsEmitted(v, ParentOf(v, s), d - 1, le);
      EmitAllClosed(v, roots, 0, le, ParentOf(v, s), d - 1, s);
    }
  }

  /** The tree holds exactly the visible sessions whose parent chain reaches a root, at its length. */
  lemma EmittedExactlyWhenRooted(v: Rows, s: Session, d: nat, le: (Session, Session) -> bool)
    ensures Row(s, d) in Tree(v, le) <==> s in v && AtDepth(v, s, d)
  {
    RootsAtDepth(v, le);
    if Row(s, d) in Tree(v, le) {
      EmitAllBelow(v, SortBy(Roots(v, v), le), 0, le, Row(s, d));
    }
    if s in v && AtDepth(v, s, d) { ReachableIsEmitted(v, s, d, le); }
  }

  predicate Siblings(v: Rows, a: Session, b: Session) {
    HasParent(v, a) == HasParent(v, b) && (HasParent(v, a) ==> a.spawnedBy == b.spawnedBy)
  }

  /** No two rows hold one session, and siblings stand in order. */
  predicate Ordered(v: Rows, rows: seq<Row>, le: (Session, Session) -> bool) {
    forall i, j :: 0 <= i < j < |rows| ==> OrderedPair(v, rows[i].session, rows[j].session, le)
  }

  predicate OrderedPair(v: Rows, a: Session, b: Session, le: (Session, Session) -> bool) {
    a != b && (Siblings(v, a, b) ==> le(a, b))
  }

  predicate OrderedList(list: seq<Session>, le: (Session, Session) -> bool) {
    forall i, j :: 0 <= i < j < |list| ==> list[i] != list[j] && le(list[i], list[j])
  }

  lemma {:induction false} SiblingDepth(v: Rows, a: Session, b: Session, d: nat, e: nat)
    requires Siblings(v, a, b) && AtDepth(v, a, d) && AtDepth(v, b, e)
    ensures d == e && (d > 0 ==> ParentOf(v, a) == ParentOf(v, b))
  {
    if HasParent(v, a) {
      ParentIsUnique(v, a);
      assert IsParent(v, ParentOf(v, b), a);
      DepthIsUnique(v, ParentOf(v, a), d - 1, e - 1);
    }
  }

  /** Rows under different list members never clash. */
  lemma AcrossBlocks(v: Rows, a: Row, s: Session, b: Row, t: Session, d: nat, le: (Session, Session) -> bool)
    requires Below(v, a, s, d) && Below(v, b, t, d) && s != t && le(s, t)
    ensures OrderedPair(v, a.session, b.session, le)
  {
    if a.session == b.session {
      DepthIsUnique(v, a.session, a.depth, b.depth);
      AncestorIsUnique(v, a.session, a.depth - d, s, t);
    } else if Siblings(v, a.session, b.session) {
      SiblingDepth(v, a.session, b.session, a.depth, b.depth);
      if a.depth > d {
        AncestorIsUnique(v, ParentOf(v, a.session), a.depth - d - 1, s, t);
      }
    }
  }

  lemma {:induction false} EmitOrdered(v: Rows, s: Session, d: nat, le: (Session, Session) -> bool)
    requires TotalPreorder(le)
    requires s in v && AtDepth(v, s, d)
    ensures Ordered(v, Emit(v, s, d, le), le)
    decreases |v| - d, 0
  {
    DepthIsBounded(v, s, d);
    ChildrenAtDepth(v, s, d, le);
    var children := Children(v, s, le);
    ChildrenOrdered(v, s, le);
    EmitAllOrdered(v, children, d + 1, le);
    var rows, below := Emit(v, s, d, le), EmitAll(v, children, d + 1, le);
    forall j | 1 <= j < |rows| ensures OrderedPair(v, s, rows[j].session, le) {
      assert rows[j] == below[j - 1] && rows[j] in below;
      EmitAllBelow(v, children, d + 1, le, rows[j]);
      HeadAgainstDeeper(v, s, d, rows[j], le);
    }
    assert forall j :: 1 <= j < |rows| ==> rows[j] == below[j - 1];
  }

  lemma HeadAgainstDeeper(v: Rows, s: Session, d: nat, row: Row, le: (Session, Session) -> bool)
    requires AtDepth(v, s, d) && AtDepth(v, row.session, row.depth) && row.depth > d
    ensures OrderedPair(v, s, row.session, le)
  {
    if s == row.session {
      DepthIsUnique(v, s, d, row.depth);
    } else if Siblings(v, s, row.session) {
      SiblingDepth(v, s, row.session, d, row.depth);
    }
  }

  lemma {:induction false} EmitAllOrdered(v: Rows, list: seq<Session>, d: nat, le: (Session, Session) -> bool)
    requires TotalPreorder(le)
    requires AllAtDepth(v, list, d) && d <= |v| && OrderedList(list, le)
    ensures Ordered(v, EmitAll(v, list, d, le), le)
    decreases |v| - d, |list|
  {
    if list != [] {
      EmitOrdered(v, list[0], d, le);
      EmitAllOrdered(v, list[1..], d, le);
      var a, b := Emit(v, list[0], d, le), EmitAll(v, list[1..], d, le);
      forall i, j | 0 <= i < |a| && 0 <= j < |b| ensures OrderedPair(v, a[i].session, b[j].session, le) {
        assert a[i] in a && b[j] in b;
        EmitBelow(v, list[0], d, le, a[i]);
        EmitAllBelow(v, list[1..], d, le, b[j]);
        var t :| t in list[1..] && Below(v, b[j], t, d);
        AcrossBlocks(v, a[i], list[0], b[j], t, d, le);
      }
      ConcatOrdered(v, a, b, le);
    }
  }

  lemma ConcatOrdered(v: Rows, a: seq<Row>, b: seq<Row>, le: (Session, Session) -> bool)
    requires Ordered(v, a, le) && Ordered(v, b, le)
    requires forall i, j :: 0 <= i < |a| && 0 <= j < |b| ==> OrderedPair(v, a[i].session, b[j].session, le)
    ensures Ordered(v, a + b, le)
  {
    var rows := a + b;
    forall i, j | 0 <= i < j < |rows| ensures OrderedPair(v, rows[i].session, rows[j].session, le) {
      assert rows[i] == if i < |a| then a[i] else b[i - |a|];
      assert rows[j] == if j < |a| then a[j] else b[j - |a|];
    }
  }

  predicate Distinct(list: seq<Session>) {
    forall i, j :: 0 <= i < j < |list| ==> list[i] != list[j]
  }

  lemma {:induction false} DistinctCounts(list: seq<Session>)
    ensures Distinct(list) <==> forall s :: multiset(list)[s] <= 1
  {
    if list != [] {
      var rest, last := list[..|list| - 1], list[|list| - 1];
      DistinctCounts(rest);
      assert list == rest + [last];
      assert multiset(list) == multiset(rest) + multiset{last};
      assert Distinct(list) <==> Distinct(rest) && last !in rest;
      assert last in rest <==> multiset(rest)[last] > 0;
      assert forall s :: multiset(list)[s] == multiset(rest)[s] + if s == last then 1 else 0;
    }
  }

  lemma SortedDistinct(list: seq<Session>, le: (Session, Session) -> bool)
    requires TotalPreorder(le) && Distinct(list)
    ensures OrderedList(SortBy(list, le), le)
  {
    SortSorts(list, le);
    SortKeeps(list, le);
    DistinctCounts(list);
    DistinctCounts(SortBy(list, le));
  }

  lemma {:induction false} ChildrenDistinct(all: seq<Session>, v: seq<Session>, id: string)
    requires Distinct(v)
    ensures Distinct(ChildrenOf(all, v, id)) && Distinct(Roots(all, v))
  {
    if v != [] {
      var rest := v[..|v| - 1];
      ChildrenDistinct(all, rest, id);
      ChildrenMembers(all, rest, id);
      RootsMembers(all, rest);
      assert v[|v| - 1] !in rest;
      AppendDistinct(ChildrenOf(all, rest, id), v[|v| - 1]);
      AppendDistinct(Roots(all, rest), v[|v| - 1]);
    }
  }

  lemma AppendDistinct(list: seq<Session>, s: Session)
    requires Distinct(list) && s !in list
    ensures Distinct(list + [s])
  {
  }

  lemma ChildrenOrdered(v: Rows, s: Session, le: (Session, Session) -> bool)
    requires TotalPreorder(le) && s in v
    ensures OrderedList(Children(v, s, le), le)
  {
    ChildrenDistinct(v, v, s.id);
    SortedDistinct(ChildrenOf(v, v, s.id), le);
  }

  /** The tree lists each session once, siblings in order, every row right under its parent. */
  lemma TreeIsAPreorder(v: Rows, le: (Session, Session) -> bool)
    requires TotalPreorder(le)
    ensures Ordered(v, Tree(v, le), le)
    ensures WellNested(v, Tree(v, le), 0)
    ensures TopLevel(Tree(v, le), 0) == SortBy(Roots(v, v), le)
  {
    RootsAtDepth(v, le);
    ChildrenDistinct(v, v, "");
    SortedDistinct(Roots(v, v), le);
    EmitAllOrdered(v, SortBy(Roots(v, v), le), 0, le);
    EmitAllNested(v, SortBy(Roots(v, v), le), 0, le);
  }

  /** The spawn edges have no cycle: parents rank strictly below their children. */
  ghost predicate Acyclic(v: Rows) {
    exists rank: Session -> nat :: Ranks(v, rank)
  }

  ghost predicate Ranks(v: Rows, rank: Session -> nat) {
    forall s <- v :: HasParent(v, s) ==> rank(ParentOf(v, s)) < rank(s)
  }

  ghost predicate Rooted(v: Rows, s: Session) {
    exists d: nat :: AtDepth(v, s, d)
  }

  lemma {:induction false} RankedIsRooted(v: Rows, rank: Session -> nat, s: Session)
    requires Ranks(v, rank) && s in v
    ensures Rooted(v, s)
    decreases rank(s)
  {
    if HasParent(v, s) {
      RankedIsRooted(v, rank, ParentOf(v, s));
      var d: nat :| AtDepth(v, ParentOf(v, s), d);
      assert AtDepth(v, s, d + 1);
    } else {
      assert AtDepth(v, s, 0);
    }
  }

  ghost function DepthOf(v: Rows, s: Session): nat {
    if Rooted(v, s) then var d: nat :| AtDepth(v, s, d); d else 0
  }

  ghost predicate Shown(v: Rows, s: Session, le: (Session, Session) -> bool) {
    exists d: nat :: Row(s, d) in Tree(v, le)
  }

  /** The tree loses no session exactly when the spawn edges are acyclic. */
  lemma AllShownExactlyWhenAcyclic(v: Rows, le: (Session, Session) -> bool)
    ensures (forall s <- v :: Shown(v, s, le)) <==> Acyclic(v)
  {
    if forall s <- v :: Shown(v, s, le) {
      var rank := (s: Session) => DepthOf(v, s);
      forall s <- v | HasParent(v, s) ensures rank(ParentOf(v, s)) < rank(s) {
        assert Shown(v, s, le);
        var d: nat :| Row(s, d) in Tree(v, le);
        EmittedExactlyWhenRooted(v, s, d, le);
        assert AtDepth(v, ParentOf(v, s), d - 1);
        DepthIsUnique(v, s, d, DepthOf(v, s));
        DepthIsUnique(v, ParentOf(v, s), d - 1, DepthOf(v, ParentOf(v, s)));
      }
      assert Ranks(v, rank);
    }
    if Acyclic(v) {
      var rank: Session -> nat :| Ranks(v, rank);
      forall s <- v ensures Shown(v, s, le) {
        RankedIsRooted(v, rank, s);
        var d: nat :| AtDepth(v, s, d);
        EmittedExactlyWhenRooted(v, s, d, le);
      }
    }
  }

  // ---------------------------------------------------------------- the code's own loops

  function Entry(byParent: map<string, seq<Session>>, id: string): seq<Session> {
    if id in byParent then byParent[id] else []
  }

  /** `byParent` after the sessions `done` of the visible list. */
  ghost predicate Grouped(v: Rows, done: seq<Session>, byParent: map<string, seq<Session>>) {
    forall id :: Entry(byParent, id) == ChildrenOf(v, done, id)
  }

  lemma GroupStep(v: Rows, done: seq<Session>, s: Session, byParent: map<string, seq<Session>>)
    requires Grouped(v, done, byParent)
    ensures HasParent(v, s) ==>
      Grouped(v, done + [s], byParent[s.spawnedBy.value := Entry(byParent, s.spawnedBy.value) + [s]])
    ensures !HasParent(v, s) ==> Grouped(v, done + [s], byParent)
    ensures Roots(v, done + [s]) == Roots(v, done) + if HasParent(v, s) then [] else [s]
  {
    var more := done + [s];
    assert more[..|more| - 1] == done && more[|more| - 1] == s;
    forall id ensures ChildrenOf(v, more, id) ==
      ChildrenOf(v, done, id) + if HasParent(v, s) && s.spawnedBy.value == id then [s] else []
    {
    }
  }

  method GroupByParent(v: Rows) returns (byParent: map<string, seq<Session>>, roots: seq<Session>)
    ensures Grouped(v, v, byParent)
    ensures roots == Roots(v, v)
  {
    var ids := set s <- v :: s.id;
    byParent, roots := map[], [];
    for i := 0 to |v|
      invariant Grouped(v, v[..i], byParent)
      invariant roots == Roots(v, v[..i])
    {
      var s := v[i];
      GroupStep(v, v[..i], s, byParent);
      assert v[..i + 1] == v[..i] + [s];
      if s.spawnedBy.Some? && s.spawnedBy.value != "" && s.spawnedBy.value in ids {
        byParent := byParent[s.spawnedBy.value := Entry(byParent, s.spawnedBy.value) + [s]];
      } else {
        roots := roots + [s];
      }
    }
    assert v[..|v|] == v;
  }

  lemma EmitUnfolds(v: Rows, byParent: map<string, seq<Session>>, s: Session, d: nat,
                    le: (Session, Session) -> bool, children: seq<Session>) returns (below: seq<Row>)
    requires Grouped(v, v, byParent) && children == SortBy(Entry(byParent, s.id), le)
    requires s in v && AtDepth(v, s, d)
    ensures d < |v| && AllAtDepth(v, children, d + 1)
    ensures below == EmitAll(v, children, d + 1, le)
    ensures Emit(v, s, d, le) == [Row(s, d)] + below
  {
    DepthIsBounded(v, s, d);
    ChildrenAtDepth(v, s, d, le);
    below := EmitAll(v, children, d + 1, le);
  }

  /** `emit`: pushes the session's block onto the rows. */
  method EmitRows(ghost v: Rows, byParent: map<string, seq<Session>>, s: Session, d: nat,
                  le: (Session, Session) -> bool, rows: seq<Row>) returns (r: seq<Row>)
    requires Grouped(v, v, byParent)
    requires s in v && AtDepth(v, s, d)
    ensures r == rows + Emit(v, s, d, le)
    decreases |v| - d, 0
  {
    var children := SortBy(Entry(byParent, s.id), le);
    ghost var below := EmitUnfolds(v, byParent, s, d, le, children);
    r := EmitEach(v, byParent, children, d + 1, le, rows + [Row(s, d)]);
    ConcatAssociates(rows, [Row(s, d)], below);
  }

  /** The loop over children, and over roots. */
  method EmitEach(ghost v: Rows, byParent: map<string, seq<Session>>, list: seq<Session>, d: nat,
                  le: (Session, Session) -> bool, rows: seq<Row>) returns (r: seq<Row>)
    requires Grouped(v, v, byParent)
    requires AllAtDepth(v, list, d) && d <= |v|
    ensures r == rows + EmitAll(v, list, d, le)
    decreases |v| - d, 1
  {
    r := rows;
    for k := 0 to |list|
      invariant AllAtDepth(v, list[k..], d)
      invariant r + EmitAll(v, list[k..], d, le) == rows + EmitAll(v, list, d, le)
    {
      ghost var before, block := r, Emit(v, list[k], d, le);
      assert list[k..][0] == list[k] && list[k..][1..] == list[k + 1..];
      r := EmitRows(v, byParent, list[k], d, le, r);
      ConcatAssociates(before, block, EmitAll(v, list[k + 1..], d, le));
    }
  }

  /** `buildSpawnTree`. */
  method BuildSpawnTree(sessions: seq<Session>, le: (Session, Session) -> bool) returns (rows: seq<Row>)
    requires UniqueSessionIds(sessions)
    ensures UniqueSessionIds(Visible(sessions))
    ensures rows == Tree(Visible(sessions), le)
  {
    VisibleUnique(sessions);
    var v: Rows := Visible(sessions);
    var byParent, roots := GroupByParent(v);
    RootsAtDepth(v, le);
    rows := EmitEach(v, byParent, SortBy(roots, le), 0, le, []);
  }
}
