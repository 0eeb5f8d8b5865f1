/** The rail itself: the accumulators turned into sorted sections, and the order it cycles in. */
module RailModel {
  import opened Wrappers
  import opened Sessions
  import opened Sorting
  import opened Flattening
  import opened RailSeats

  /** `le` is the locale order of strings; `working` tells the seats whose turn is running. */
  datatype Order = Order(le: (string, string) -> bool, working: Session -> bool)

  datatype SprintSection = SprintSection(ref: Ref, seats: seq<Session>, masters: seq<Master>)

  datatype RailModel = RailModel(
    sprints: seq<SprintSection>,
    masters: seq<Master>,
    unattached: seq<Session>,
    completedUnattached: seq<Session>,
    completedTotal: nat)

  // ---------------------------------------------------------------- comparators

  function ClusterRank(role: string): nat {
    if role == "worker" then 0 else if role == "reviewer" then 1 else if role == "curator" then 2 else 4
  }

  function SprintRank(role: string): nat {
    if role == "architect" then 0 else if role == "orchestrator" then 1 else if role == "strategist" then 2
    else if role == "designer" then 3 else if role == "system-specialist" then 4 else 5
  }

  function ById(o: Order): (Session, Session) -> bool {
    (a: Session, b: Session) => o.le(a.id, b.id)
  }

  /** Working seats first, then by role, then by id. */
  function ByCluster(o: Order): (Session, Session) -> bool {
    (a: Session, b: Session) =>
      if o.working(a) != o.working(b) then o.working(a)
      else if ClusterRank(a.role) != ClusterRank(b.role) then ClusterRank(a.role) < ClusterRank(b.role)
      else o.le(a.id, b.id)
  }

  function BySprintRole(o: Order): (Session, Session) -> bool {
    (a: Session, b: Session) =>
      if SprintRank(a.role) != SprintRank(b.role) then SprintRank(a.role) < SprintRank(b.role)
      else o.le(a.id, b.id)
  }

  /** Running sessions first, then by id. */
  function ByLife(o: Order): (Session, Session) -> bool {
    (a: Session, b: Session) =>
      if a.status.Running? != b.status.Running? then a.status.Running? else o.le(a.id, b.id)
  }

  function LeafByPath(o: Order): (Leaf, Leaf) -> bool {
    (a: Leaf, b: Leaf) => o.le(a.doc.docPath, b.doc.docPath)
  }

  function MasterByPath(o: Order): (Master, Master) -> bool {
    (a: Master, b: Master) => o.le(a.doc.docPath, b.doc.docPath)
  }

  function SprintPath(sprints: seq<Sprint>): int -> string {
    (j: int) => if 0 <= j < |sprints| then sprints[j].doc.docPath else ""
  }

  function SprintByPath(o: Order, sprints: seq<Sprint>): (int, int) -> bool {
    (i: int, j: int) => o.le(SprintPath(sprints)(i), SprintPath(sprints)(j))
  }

  // ---------------------------------------------------------------- sections

  function SortedSeats(leaves: seq<Leaf>, o: Order): (r: seq<Leaf>)
    ensures |r| == |leaves|
    ensures forall i :: 0 <= i < |leaves| ==> r[i] == leaves[i].(seats := SortBy(leaves[i].seats, ByCluster(o)))
  {
    if leaves == [] then []
    else [leaves[0].(seats := SortBy(leaves[0].seats, ByCluster(o)))] + SortedSeats(leaves[1..], o)
  }

  function Materialize(m: Master, o: Order): Master {
    m.(leaves := SortedSeats(SortBy(m.leaves, LeafByPath(o)), o), completed := SortBy(m.completed, ById(o)))
  }

  function MaterializeAll(masters: seq<Master>, o: Order): (r: seq<Master>)
    ensures |r| == |masters| && forall i :: 0 <= i < |masters| ==> r[i] == Materialize(masters[i], o)
  {
    if masters == [] then [] else [Materialize(masters[0], o)] + MaterializeAll(masters[1..], o)
  }

  predicate IsShown(m: Master) {
    m.manager.Some? || m.reviewer.Some? || |m.leaves| > 0 || |m.completed| > 0
  }

  function ShownMasters(r: Rail): seq<Master> {
    Filter(r.masters, IsShown)
  }

  predicate Commands(sprint: Sprint, doc: Doc) {
    && sprint.doc.repository == doc.repository
    && sprint.doc.docPath != doc.docPath
    && exists name <- sprint.doc.orchestrates :: name in doc.commandNames
  }

  /** The first sprint whose document names the master; the number of sprints when none does. */
  function SprintFor(doc: Doc, sprints: seq<Sprint>): (i: nat)
    ensures i <= |sprints| && (i < |sprints| ==> Commands(sprints[i], doc))
    ensures forall j :: 0 <= j < i ==> !Commands(sprints[j], doc)
  {
    IndexWhere(sprints, (s: Sprint) => Commands(s, doc))
  }

  /** `masterSprint`, by document key. */
  function Assignment(shown: seq<Master>, sprints: seq<Sprint>): map<string, int> {
    if shown == [] then map[] else
    var last := shown[|shown| - 1];
    var before := Assignment(shown[..|shown| - 1], sprints);
    var i := SprintFor(last.doc, sprints);
    if i == |sprints| then before else before[DocumentKey(last.ref) := i]
  }

  /** The sprints whose `masters` set is not empty. */
  function Named(shown: seq<Master>, sprints: seq<Sprint>): set<int> {
    if shown == [] then {} else
    var i := SprintFor(shown[|shown| - 1].doc, sprints);
    Named(shown[..|shown| - 1], sprints) + if i == |sprints| then {} else {i}
  }

  /** The sprint a shown master is listed under, or -1. */
  function OwnerIn(pick: map<string, int>): Master -> int {
    (m: Master) => if DocumentKey(m.ref) in pick then pick[DocumentKey(m.ref)] else -1
  }

  function Indices(n: nat): (r: seq<int>)
    ensures |r| == n && forall i :: 0 <= i < n ==> r[i] == i
  {
    seq(n, i => i)
  }

  function SprintShown(sprints: seq<Sprint>, named: set<int>): int -> bool {
    (j: int) => 0 <= j < |sprints| && (sprints[j].seats != [] || j in named)
  }

  function OwnedMasters(shown: seq<Master>, owner: Master -> int, j: int, o: Order): seq<Master> {
    MaterializeAll(SortBy(Filter(shown, OwnedBy(owner, j)), MasterByPath(o)), o)
  }

  predicate InRange(js: seq<int>, n: nat) {
    forall i :: 0 <= i < |js| ==> 0 <= js[i] < n
  }

  function SectionFor(sprint: Sprint, shown: seq<Master>, owner: Master -> int, o: Order, j: int): SprintSection {
    SprintSection(sprint.ref, SortBy(sprint.seats, BySprintRole(o)), OwnedMasters(shown, owner, j, o))
  }

  function Sections(sprints: seq<Sprint>, shown: seq<Master>, owner: Master -> int, o: Order, js: seq<int>): seq<SprintSection>
    requires InRange(js, |sprints|)
  {
    if js == [] then []
    else [SectionFor(sprints[js[0]], shown, owner, o, js[0])] + Sections(sprints, shown, owner, o, js[1..])
  }

  function ShownSprints(r: Rail, o: Order): (js: seq<int>)
    ensures InRange(js, |r.sprints|)
  {
    var named := Named(ShownMasters(r), r.sprints);
    var js := Filter(Indices(|r.sprints|), SprintShown(r.sprints, named));
    FilterMembers(Indices(|r.sprints|), SprintShown(r.sprints, named));
    SortKeeps(js, SprintByPath(o, r.sprints));
    var sorted := SortBy(js, SprintByPath(o, r.sprints));
    assert forall i :: 0 <= i < |sorted| ==> sorted[i] in js;
    sorted
  }

  function OwnerOf(r: Rail): Master -> int {
    OwnerIn(Assignment(ShownMasters(r), r.sprints))
  }

  function SectionMasters(sections: seq<SprintSection>): seq<Master> {
    Flat(sections, (s: SprintSection) => s.masters)
  }

  function Materialized(r: Rail, o: Order): RailModel {
    var shown := ShownMasters(r);
    var sprints := Sections(r.sprints, shown, OwnerOf(r), o, ShownSprints(r, o));
    var masters := OwnedMasters(shown, OwnerOf(r), -1, o);
    RailModel(sprints, masters, SortBy(r.unattached, ByLife(o)), r.completedUnattached,
              |Flat(masters + SectionMasters(sprints), MasterCompleted)| + |r.completedUnattached|)
  }

  /** `buildRailModel`. */
  function Model(sessions: seq<Session>, docs: seq<Doc>, o: Order): RailModel {
    Materialized(AttachAll(Initial(docs), Visible(sessions)), o)
  }

  // ---------------------------------------------------------------- what a model holds

  function SectionSeats(s: SprintSection): seq<Session> {
    s.seats + Flat(s.masters, MasterSeats)
  }

  function SectionCompleted(s: SprintSection): seq<Session> {
    Flat(s.masters, MasterCompleted)
  }

  /** The open sessions in cycling order. */
  function CycleSessions(model: RailModel): seq<Session> {
    Flat(model.sprints, SectionSeats) + Flat(model.masters, MasterSeats) + model.unattached
  }

  function CompletedSessions(model: RailModel): seq<Session> {
    Flat(model.sprints, SectionCompleted) + Flat(model.masters, MasterCompleted) + model.completedUnattached
  }

  lemma MaterializeKeeps(m: Master, o: Order)
    ensures multiset(MasterSeats(Materialize(m, o))) == multiset(MasterSeats(m))
    ensures multiset(MasterCompleted(Materialize(m, o))) == multiset(MasterCompleted(m))
  {
    var byPath := SortBy(m.leaves, LeafByPath(o));
    var sorted := SortedSeats(byPath, o);
    forall i | 0 <= i < |byPath| ensures multiset(LeafSeats(sorted[i])) == multiset(LeafSeats(byPath[i])) {
      SortKeeps(byPath[i].seats, ByCluster(o));
    }
    FlatSame(sorted, byPath, LeafSeats, LeafSeats);
    FlatSort(m.leaves, LeafByPath(o), LeafSeats);
    SortKeeps(m.completed, ById(o));
    ConcatCounts(Held(m.manager), Held(m.reviewer), Flat(m.leaves, LeafSeats));
    ConcatCounts(Held(m.manager), Held(m.reviewer), Flat(sorted, LeafSeats));
  }

  lemma OwnedMastersKeep(shown: seq<Master>, owner: Master -> int, j: int, o: Order)
    ensures multiset(Flat(OwnedMasters(shown, owner, j, o), MasterSeats)) == multiset(Share(shown, owner, MasterSeats)(j))
    ensures multiset(Flat(OwnedMasters(shown, owner, j, o), MasterCompleted)) ==
      multiset(Share(shown, owner, MasterCompleted)(j))
  {
    var mine := Filter(shown, OwnedBy(owner, j));
    var sorted := SortBy(mine, MasterByPath(o));
    var made := MaterializeAll(sorted, o);
    forall i | 0 <= i < |sorted|
      ensures multiset(MasterSeats(made[i])) == multiset(MasterSeats(sorted[i]))
      ensures multiset(MasterCompleted(made[i])) == multiset(MasterCompleted(sorted[i]))
    {
      MaterializeKeeps(sorted[i], o);
    }
    FlatSame(made, sorted, MasterSeats, MasterSeats);
    FlatSame(made, sorted, MasterCompleted, MasterCompleted);
    FlatSort(mine, MasterByPath(o), MasterSeats);
    FlatSort(mine, MasterByPath(o), MasterCompleted);
  }

  function SeatsAt(sprints: seq<Sprint>): int -> seq<Session> {
    (j: int) => if 0 <= j < |sprints| then sprints[j].seats else []
  }

  lemma {:induction false} SectionsKeep(
    sprints: seq<Sprint>, shown: seq<Master>, owner: Master -> int, o: Order, js: seq<int>)
    requires InRange(js, |sprints|)
    ensures multiset(Flat(Sections(sprints, shown, owner, o, js), SectionSeats)) ==
      multiset(Flat(js, SeatsAt(sprints))) + multiset(Flat(js, Share(shown, owner, MasterSeats)))
    ensures multiset(Flat(Sections(sprints, shown, owner, o, js), SectionCompleted)) ==
      multiset(Flat(js, Share(shown, owner, MasterCompleted)))
    decreases |js|
  {
    if js != [] {
      var j, rest := js[0], js[1..];
      SectionsKeep(sprints, shown, owner, o, rest);
      OwnedMastersKeep(shown, owner, j, o);
      SortKeeps(sprints[j].seats, BySprintRole(o));
      var head := SprintSection(sprints[j].ref, SortBy(sprints[j].seats, BySprintRole(o)), OwnedMasters(shown, owner, j, o));
      var tail := Sections(sprints, shown, owner, o, rest);
      assert Sections(sprints, shown, owner, o, js) == [head] + tail;
      assert Flat([head] + tail, SectionSeats) == SectionSeats(head) + Flat(tail, SectionSeats);
      assert Flat([head] + tail, SectionCompleted) == SectionCompleted(head) + Flat(tail, SectionCompleted);
      PairUp(multiset(sprints[j].seats), multiset(Share(shown, owner, MasterSeats)(j)),
             multiset(Flat(rest, SeatsAt(sprints))), multiset(Flat(rest, Share(shown, owner, MasterSeats))));
    }
  }

  lemma PairUp(a: multiset<Session>, b: multiset<Session>, c: multiset<Session>, d: multiset<Session>)
    ensures (a + b) + (c + d) == (a + c) + (b + d)
  {
  }

  lemma {:induction false} AssignmentIsNamed(shown: seq<Master>, sprints: seq<Sprint>)
    ensures forall key <- Assignment(shown, sprints) :: Assignment(shown, sprints)[key] in Named(shown, sprints)
    ensures forall j <- Named(shown, sprints) :: 0 <= j < |sprints|
  {
    if shown != [] { AssignmentIsNamed(shown[..|shown| - 1], sprints); }
  }

  lemma {:induction false} FilterDistinct(s: seq<int>, p: int -> bool)
    requires forall i, k :: 0 <= i < k < |s| ==> s[i] != s[k]
    ensures forall i, k :: 0 <= i < k < |Filter(s, p)| ==> Filter(s, p)[i] != Filter(s, p)[k]
  {
    if s != [] {
      FilterDistinct(s[1..], p);
      var rest := Filter(s[1..], p);
      FilterMembers(s[1..], p);
      assert forall i :: 0 <= i < |rest| ==> rest[i] in rest && rest[i] in s[1..];
      assert s[0] !in s[1..];
    }
  }

  /** Whatever shown masters contribute is dealt out whole: to the sprint that owns each, or the top level. */
  lemma ShownMastersAreDealtOut<U>(r: Rail, o: Order, f: Master -> seq<U>)
    requires forall m <- r.masters :: !IsShown(m) ==> f(m) == []
    ensures multiset(Flat(ShownSprints(r, o), Share(ShownMasters(r), OwnerOf(r), f))) +
            multiset(Share(ShownMasters(r), OwnerOf(r), f)(-1)) == multiset(Flat(r.masters, f))
  {
    var shown, owner := ShownMasters(r), OwnerOf(r);
    var p := SprintShown(r.sprints, Named(shown, r.sprints));
    var js := Filter(Indices(|r.sprints|), p);
    FlatSort(js, SprintByPath(o, r.sprints), Share(shown, owner, f));
    FilterDistinct(Indices(|r.sprints|), p);
    FilterMembers(Indices(|r.sprints|), p);
    assert -1 !in js;
    forall m <- shown ensures owner(m) == -1 || owner(m) in js { OwnerIsShown(r, m); }
    DealAll(shown, owner, js, f);
    FlatDrop(r.masters, IsShown, f);
  }

  lemma DealAll<U>(shown: seq<Master>, owner: Master -> int, js: seq<int>, f: Master -> seq<U>)
    requires forall i, k :: 0 <= i < k < |js| ==> js[i] != js[k]
    requires -1 !in js && forall m <- shown :: owner(m) == -1 || owner(m) in js
    ensures multiset(Flat(js, Share(shown, owner, f))) + multiset(Share(shown, owner, f)(-1)) == multiset(Flat(shown, f))
  {
    var all := js + [-1];
    DealOut(shown, owner, all, f);
    FlatPush(js, -1, Share(shown, owner, f));
    FilterAll(shown, OwnedAmong(owner, all));
  }

  lemma OwnerIsShown(r: Rail, m: Master)
    ensures OwnerOf(r)(m) == -1 ||
      OwnerOf(r)(m) in Filter(Indices(|r.sprints|), SprintShown(r.sprints, Named(ShownMasters(r), r.sprints)))
  {
    var shown, j := ShownMasters(r), OwnerOf(r)(m);
    var named := Named(shown, r.sprints);
    AssignmentIsNamed(shown, r.sprints);
    if j != -1 {
      assert j in named && 0 <= j < |r.sprints|;
      assert Indices(|r.sprints|)[j] == j;
      FilterMembers(Indices(|r.sprints|), SprintShown(r.sprints, named));
    }
  }

  lemma {:induction false} FilterAll<T>(s: seq<T>, p: T -> bool)
    requires forall x <- s :: p(x)
    ensures Filter(s, p) == s
  {
    if s != [] {
      assert s[0] in s;
      FilterAll(s[1..], p);
    }
  }

  /** A master as the model lists it, if it does. */
  function Listing(o: Order): Master -> seq<Master> {
    (m: Master) => if IsShown(m) then [Materialize(m, o)] else []
  }

  lemma {:induction false} ListingOfShown(masters: seq<Master>, o: Order)
    requires forall m <- masters :: IsShown(m)
    ensures Flat(masters, Listing(o)) == MaterializeAll(masters, o)
  {
    if masters != [] {
      assert masters[0] in masters;
      ListingOfShown(masters[1..], o);
    }
  }

  lemma OwnedListing(shown: seq<Master>, owner: Master -> int, j: int, o: Order)
    requires forall m <- shown :: IsShown(m)
    ensures multiset(OwnedMasters(shown, owner, j, o)) == multiset(Share(shown, owner, Listing(o))(j))
  {
    var mine := Filter(shown, OwnedBy(owner, j));
    FilterMembers(shown, OwnedBy(owner, j));
    SortKeeps(mine, MasterByPath(o));
    ListingOfShown(SortBy(mine, MasterByPath(o)), o);
    FlatSort(mine, MasterByPath(o), Listing(o));
  }

  lemma {:induction false} SectionsList(
    sprints: seq<Sprint>, shown: seq<Master>, owner: Master -> int, o: Order, js: seq<int>)
    requires InRange(js, |sprints|) && forall m <- shown :: IsShown(m)
    ensures multiset(SectionMasters(Sections(sprints, shown, owner, o, js))) ==
      multiset(Flat(js, Share(shown, owner, Listing(o))))
    decreases |js|
  {
    if js != [] {
      SectionsList(sprints, shown, owner, o, js[1..]);
      OwnedListing(shown, owner, js[0], o);
      var sections := Sections(sprints, shown, owner, o, js);
      assert sections[0].masters == OwnedMasters(shown, owner, js[0], o);
      assert SectionMasters(sections) == sections[0].masters + SectionMasters(sections[1..]);
    }
  }

  /** Every shown master is listed exactly once: under one sprint section, or at the top level. */
  lemma EveryShownMasterIsListedOnce(r: Rail, o: Order)
    ensures var model := Materialized(r, o);
      multiset(SectionMasters(model.sprints) + model.masters) == multiset(MaterializeAll(ShownMasters(r), o))
  {
    var shown, owner := ShownMasters(r), OwnerOf(r);
    FilterMembers(r.masters, IsShown);
    SectionsList(r.sprints, shown, owner, o, ShownSprints(r, o));
    OwnedListing(shown, owner, -1, o);
    ShownMastersAreDealtOut(r, o, Listing(o));
    FlatDrop(r.masters, IsShown, Listing(o));
    ListingOfShown(shown, o);
  }

  /** No sprint seat is lost by hiding the empty sprints. */
  lemma SprintSeatsAreShown(r: Rail, o: Order)
    ensures multiset(Flat(ShownSprints(r, o), SeatsAt(r.sprints))) == multiset(Flat(r.sprints, SprintSeats))
  {
    var named := Named(ShownMasters(r), r.sprints);
    var indices := Indices(|r.sprints|);
    FlatSort(Filter(indices, SprintShown(r.sprints, named)), SprintByPath(o, r.sprints), SeatsAt(r.sprints));
    FlatDrop(indices, SprintShown(r.sprints, named), SeatsAt(r.sprints));
    FlatSame(indices, r.sprints, SeatsAt(r.sprints), SprintSeats);
  }

  /** Sections hold exactly what the accumulators hold. */
  lemma MaterializedHolds(r: Rail, o: Order)
    ensures multiset(CycleSessions(Materialized(r, o))) == Open(r)
    ensures multiset(CompletedSessions(Materialized(r, o))) == Completed(r)
  {
    var shown, owner, js := ShownMasters(r), OwnerOf(r), ShownSprints(r, o);
    var model := Materialized(r, o);
    SectionsKeep(r.sprints, shown, owner, o, js);
    OwnedMastersKeep(shown, owner, -1, o);
    SprintSeatsAreShown(r, o);
    ShownMastersAreDealtOut(r, o, MasterSeats);
    ShownMastersAreDealtOut(r, o, MasterCompleted);
    SortKeeps(r.unattached, ByLife(o));
    ConcatCounts(Flat(model.sprints, SectionSeats), Flat(model.masters, MasterSeats), model.unattached);
    ConcatCounts(Flat(model.sprints, SectionCompleted), Flat(model.masters, MasterCompleted), model.completedUnattached);
    Regroup(multiset(Flat(r.sprints, SprintSeats)), multiset(Flat(js, Share(shown, owner, MasterSeats))),
            multiset(Share(shown, owner, MasterSeats)(-1)), multiset(Flat(r.masters, MasterSeats)));
  }

  lemma {:induction false} SectionMastersFlat(sections: seq<SprintSection>)
    ensures Flat(SectionMasters(sections), MasterCompleted) == Flat(sections, SectionCompleted)
  {
    if sections != [] {
      SectionMastersFlat(sections[1..]);
      FlatAppend(sections[0].masters, SectionMasters(sections[1..]), MasterCompleted);
    }
  }

  lemma CompletedTotalCounts(r: Rail, o: Order)
    ensures Materialized(r, o).completedTotal == |CompletedSessions(Materialized(r, o))|
  {
    var model := Materialized(r, o);
    FlatAppend(model.masters, SectionMasters(model.sprints), MasterCompleted);
    SectionMastersFlat(model.sprints);
  }

  /** Every session that owns a window is in the model exactly once; the landed ones are the completed. */
  lemma RailHoldsEachSessionOnce(sessions: seq<Session>, docs: seq<Doc>, o: Order)
    ensures var model := Model(sessions, docs, o);
      && multiset(CycleSessions(model)) == multiset(OpenOf(Visible(sessions)))
      && multiset(CompletedSessions(model)) == multiset(LandedOf(Visible(sessions)))
      && model.completedTotal == |LandedOf(Visible(sessions))|
  {
    var empty := Initial(docs);
    var r := AttachAll(empty, Visible(sessions));
    InitialIsEmpty(docs);
    EmptyHoldsNothing(empty);
    AttachAllFiles(empty, Visible(sessions));
    MaterializedHolds(r, o);
    CompletedTotalCounts(r, o);
    assert |multiset(CompletedSessions(Materialized(r, o)))| == |multiset(LandedOf(Visible(sessions)))|;
  }

  lemma SeatsAreRightful(sessions: seq<Session>, docs: seq<Doc>)
    ensures WellSeated(AttachAll(Initial(docs), Visible(sessions)))
    ensures LandedWell(AttachAll(Initial(docs), Visible(sessions)))
  {
    InitialIsEmpty(docs);
    EmptyHoldsNothing(Initial(docs));
    AttachAllSeats(Initial(docs), Visible(sessions));
  }

  // ---------------------------------------------------------------- under which sprint a master is listed

  /** The sprint's document, of the same repository and not the master's own, names the master. */
  predicate NamedBy(sprint: Sprint, master: Master) {
    && sprint.doc.repository == master.doc.repository && sprint.doc.docPath != master.doc.docPath
    && exists name <- sprint.doc.orchestrates :: name in master.doc.commandNames
  }

  /** The first sprint that names the master; -1 when none does. */
  predicate IsFirstNaming(sprints: seq<Sprint>, m: Master, j: int) {
    if j == -1 then forall k :: 0 <= k < |sprints| ==> !NamedBy(sprints[k], m)
    else 0 <= j < |sprints| && NamedBy(sprints[j], m) && forall k :: 0 <= k < j ==> !NamedBy(sprints[k], m)
  }

  /** No two of the masters share a document key. */
  predicate DistinctKeys(shown: seq<Master>) {
    forall i, j :: 0 <= i < j < |shown| ==> DocumentKey(shown[i].ref) != DocumentKey(shown[j].ref)
  }

  lemma {:induction false} AssignmentIsFirstNaming(shown: seq<Master>, sprints: seq<Sprint>, i: nat)
    requires DistinctKeys(shown) && i < |shown|
    ensures IsFirstNaming(sprints, shown[i], OwnerIn(Assignment(shown, sprints))(shown[i]))
  {
    var rest, last := shown[..|shown| - 1], shown[|shown| - 1];
    SprintForIsFirstNaming(last, sprints);
    if i < |rest| {
      AssignmentIsFirstNaming(rest, sprints, i);
      assert DocumentKey(shown[i].ref) != DocumentKey(last.ref);
    } else {
      AssignedKeys(rest, sprints, DocumentKey(last.ref));
    }
  }

  lemma SprintForIsFirstNaming(m: Master, sprints: seq<Sprint>)
    ensures var j := SprintFor(m.doc, sprints); IsFirstNaming(sprints, m, if j == |sprints| then -1 else j)
  {
    assert forall k :: 0 <= k < |sprints| ==> (Commands(sprints[k], m.doc) <==> NamedBy(sprints[k], m));
  }

  lemma {:induction false} AssignedKeys(shown: seq<Master>, sprints: seq<Sprint>, key: string)
    requires forall k :: 0 <= k < |shown| ==> DocumentKey(shown[k].ref) != key
    ensures key !in Assignment(shown, sprints)
  {
    if shown != [] { AssignedKeys(shown[..|shown| - 1], sprints, key); }
  }

  /** A shown master is listed under the first sprint that names it, and at the top level when none does. */
  lemma MastersSitUnderTheirSprint(r: Rail, i: nat)
    requires DistinctKeys(ShownMasters(r)) && i < |ShownMasters(r)|
    ensures IsFirstNaming(r.sprints, ShownMasters(r)[i], OwnerOf(r)(ShownMasters(r)[i]))
  {
    AssignmentIsFirstNaming(ShownMasters(r), r.sprints, i);
  }

  /** A master is shown exactly when something is filed under it. */
  lemma ShownExactlyWhenOccupied(r: Rail, m: Master)
    ensures m in ShownMasters(r) <==>
      m in r.masters && (m.manager.Some? || m.reviewer.Some? || m.leaves != [] || m.completed != [])
  {
    FilterMembers(r.masters, IsShown);
  }

  /** A sprint is shown exactly when it has seats or names a shown master first. */
  lemma SprintShownExactlyWhen(r: Rail, o: Order, j: int)
    ensures j in ShownSprints(r, o) <==>
      0 <= j < |r.sprints| && (r.sprints[j].seats != [] || exists m <- ShownMasters(r) :: IsFirstNaming(r.sprints, m, j))
  {
    var shown := ShownMasters(r);
    var p := SprintShown(r.sprints, Named(shown, r.sprints));
    FilterMembers(Indices(|r.sprints|), p);
    SortKeeps(Filter(Indices(|r.sprints|), p), SprintByPath(o, r.sprints));
    NamedExactly(shown, r.sprints, j);
    if 0 <= j < |r.sprints| { assert Indices(|r.sprints|)[j] == j; }
  }

  lemma {:induction false} NamedExactly(shown: seq<Master>, sprints: seq<Sprint>, j: int)
    ensures j in Named(shown, sprints) <==> 0 <= j && exists m <- shown :: IsFirstNaming(sprints, m, j)
  {
    if shown != [] {
      var rest, last := shown[..|shown| - 1], shown[|shown| - 1];
      NamedExactly(rest, sprints, j);
      SprintForIsFirstNaming(last, sprints);
      assert forall m :: m in shown <==> m in rest || m == last;
      OneFirstNaming(sprints, last, j);
    }
  }

  lemma OneFirstNaming(sprints: seq<Sprint>, m: Master, j: int)
    ensures forall k :: IsFirstNaming(sprints, m, j) && IsFirstNaming(sprints, m, k) ==> j == k
  {
  }

  // ---------------------------------------------------------------- the cycling order

  function IdOf(s: Session): seq<string> { [s.id] }

  function Ids(s: seq<Session>): seq<string> {
    Flat(s, IdOf)
  }

  /** Cycling visits the id of every open window once, and no other. */
  lemma CycleIsAPermutation(sessions: seq<Session>, docs: seq<Doc>, o: Order)
    ensures multiset(Ids(CycleSessions(Model(sessions, docs, o)))) == multiset(Ids(OpenOf(Visible(sessions))))
  {
    RailHoldsEachSessionOnce(sessions, docs, o);
    FlatPermute(CycleSessions(Model(sessions, docs, o)), OpenOf(Visible(sessions)), IdOf);
  }
}