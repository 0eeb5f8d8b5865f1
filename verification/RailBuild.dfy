/** The mutating code of railModel.ts, proved against the functions of RailSeats and RailModel. */
module RailBuild {
  import opened Wrappers
  import opened Sessions
  import opened Sorting
  import opened Flattening
  import opened RailSeats
  import opened RailModel

  class RailAccumulators {
    var docs: map<string, Doc>
    var masters: seq<Master>
    var sprints: seq<Sprint>
    var unattached: seq<Session>
    var completedUnattached: seq<Session>

    function View(): Rail
      reads this
    {
      Rail(docs, masters, sprints, unattached, completedUnattached)
    }

    /** `initializeRailAccumulators`. */
    constructor (documents: seq<Doc>)
      ensures View() == Initial(documents)
    {
      docs, masters, sprints, unattached, completedUnattached := map[], [], [], [], [];
      new;
      for i := 0 to |documents|
        invariant View() == Initial(documents[..i])
      {
        var doc := documents[i];
        assert documents[..i + 1][..i] == documents[..i];
        if doc.ref.Some? {
          docs := docs[DocumentKey(doc.ref.value) := doc];
          if doc.isMaster {
            masters := SetMaster(masters, Master(doc, doc.ref.value, None, None, [], []));
            if IsOrchestration(doc) { sprints := sprints + [Sprint(doc, doc.ref.value, [])]; }
          }
        }
      }
      assert documents[..|documents|] == documents;
    }

    method AppendDetached(s: Session)
      modifies this
      ensures View() == Detach(old(View()), s)
    {
      if s.status.Landed? {
        completedUnattached := completedUnattached + [s];
      } else {
        unattached := unattached + [s];
      }
    }

    method AttachSprintSeat(s: Session, doc: Doc, ref: Ref) returns (handled: bool)
      modifies this
      ensures handled == (AltitudeOf(doc, s.role) == AtSprint)
      ensures View() == if handled then AttachSprint(old(View()), s, ref) else old(View())
    {
      if !IsOrchestration(doc) || s.role !in SprintRoles { return false; }
      if s.role == "reviewer" && !ParentMatches(s, {"architect", "orchestrator"}, ref) {
        AppendDetached(s);
        return true;
      }
      var i := SprintIndex(sprints, DocumentKey(ref));
      if i == |sprints| {
        AppendDetached(s);
      } else if s.status.Landed? {
        completedUnattached := completedUnattached + [s];
      } else {
        sprints := sprints[i := sprints[i].(seats := sprints[i].seats + [s])];
      }
      return true;
    }

    method PlaceMasterSeat(i: nat, s: Session, ref: Ref)
      requires i == MasterIndex(masters, ref.path) < |masters|
      modifies this
      ensures View() == AttachMaster(old(View()), s, ref)
    {
      var m := masters[i];
      if s.role == "reviewer" && !ParentMatches(s, {"manager"}, ref) {
        AppendDetached(s);
      } else if s.status.Landed? {
        masters := masters[i := m.(completed := m.completed + [s])];
      } else if s.role == "manager" && m.manager.None? {
        masters := masters[i := m.(manager := Some(s))];
      } else if s.role == "reviewer" && m.reviewer.None? {
        masters := masters[i := m.(reviewer := Some(s))];
      } else {
        unattached := unattached + [s];
      }
    }

    method AttachMasterSeat(s: Session, doc: Doc, ref: Ref) returns (handled: bool)
      requires AltitudeOf(doc, s.role) != AtSprint
      modifies this
      ensures handled == (AltitudeOf(doc, s.role) == AtMaster)
      ensures View() == if handled then AttachMaster(old(View()), s, ref) else old(View())
    {
      if !doc.isMaster || IsOrchestration(doc) || (s.role != "manager" && s.role != "reviewer") { return false; }
      var i := MasterIndex(masters, ref.path);
      if i == |masters| {
        AppendDetached(s);
      } else {
        PlaceMasterSeat(i, s, ref);
      }
      return true;
    }

    method AttachLeafSeat(s: Session, doc: Doc, ref: Ref) returns (handled: bool)
      modifies this
      ensures handled == (AltitudeOf(doc, s.role) == AtLeaf)
      ensures View() == if handled then AttachLeaf(old(View()), s, doc, ref) else old(View())
    {
      if doc.isMaster || s.role !in LeafRoles { return false; }
      var i := OwnerIndex(masters, doc);
      if i == |masters| {
        AppendDetached(s);
      } else {
        var m := masters[i];
        if s.role == "reviewer" && !ParentMatches(s, {"manager"}, m.ref) {
          AppendDetached(s);
        } else if s.status.Landed? {
          masters := masters[i := m.(completed := m.completed + [s])];
        } else {
          masters := masters[i := m.(leaves := SeatLeaf(m.leaves, doc, ref, s))];
        }
      }
      return true;
    }

    method AttachSession(s: Session)
      modifies this
      ensures View() == Attach(old(View()), s)
    {
      if s.taskRef.None? || DocumentKey(s.taskRef.value) !in docs {
        AppendDetached(s);
        return;
      }
      var ref := s.taskRef.value;
      var doc := docs[DocumentKey(ref)];
      var handled := AttachSprintSeat(s, doc, ref);
      if handled { return; }
      handled := AttachMasterSeat(s, doc, ref);
      if handled { return; }
      handled := AttachLeafSeat(s, doc, ref);
      if handled { return; }
      AppendDetached(s);
    }
  }

  lemma {:induction false} AttachLast(r: Rail, sessions: seq<Session>, s: Session)
    ensures AttachAll(r, sessions + [s]) == Attach(AttachAll(r, sessions), s)
    decreases |sessions|
  {
    if sessions == [] {
      assert [s][1..] == [];
    } else {
      AttachLast(Attach(r, sessions[0]), sessions[1..], s);
      assert (sessions + [s])[1..] == sessions[1..] + [s];
    }
  }

  /** The loop that assigns shown masters to sprints. */
  method AssignSprints(shown: seq<Master>, sprints: seq<Sprint>) returns (pick: map<string, int>, named: set<int>)
    ensures pick == Assignment(shown, sprints) && named == Named(shown, sprints)
  {
    pick, named := map[], {};
    for k := 0 to |shown|
      invariant pick == Assignment(shown[..k], sprints) && named == Named(shown[..k], sprints)
    {
      assert shown[..k + 1][..k] == shown[..k];
      var i := SprintFor(shown[k].doc, sprints);
      if i < |sprints| {
        named := named + {i};
        pick := pick[DocumentKey(shown[k].ref) := i];
      }
    }
    assert shown[..|shown|] == shown;
  }

  /** `materializeRailSections`, and the totals `buildRailModel` adds to it. */
  method MaterializeSections(r: Rail, o: Order) returns (model: RailModel)
    ensures model == Materialized(r, o)
  {
    var shown := ShownMasters(r);
    var pick, named := AssignSprints(shown, r.sprints);
    var js := SortBy(Filter(Indices(|r.sprints|), SprintShown(r.sprints, named)), SprintByPath(o, r.sprints));
    assert js == ShownSprints(r, o);
    var sections := Sections(r.sprints, shown, OwnerIn(pick), o, js);
    var masters := OwnedMasters(shown, OwnerIn(pick), -1, o);
    var total := CountCompleted(masters + SectionMasters(sections));
    model := RailModel(sections, masters, SortBy(r.unattached, ByLife(o)), r.completedUnattached,
                       total + |r.completedUnattached|);
  }

  /** The loop that files the sessions. */
  method FileSessions(visible: seq<Session>, documents: seq<Doc>) returns (r: Rail)
    ensures r == AttachAll(Initial(documents), visible)
  {
    var acc := new RailAccumulators(documents);
    for i := 0 to |visible|
      invariant acc.View() == AttachAll(Initial(documents), visible[..i])
    {
      AttachLast(Initial(documents), visible[..i], visible[i]);
      assert visible[..i + 1] == visible[..i] + [visible[i]];
      acc.AttachSession(visible[i]);
    }
    assert visible[..|visible|] == visible;
    r := acc.View();
  }

  /** `buildRailModel`. */
  method BuildRailModel(sessions: seq<Session>, documents: seq<Doc>, o: Order) returns (model: RailModel)
    ensures model == Model(sessions, documents, o)
    ensures multiset(CycleSessions(model)) == multiset(OpenOf(Visible(sessions)))
    ensures multiset(CompletedSessions(model)) == multiset(LandedOf(Visible(sessions)))
    ensures model.completedTotal == |LandedOf(Visible(sessions))|
  {
    var r := FileSessions(Visible(sessions), documents);
    model := MaterializeSections(r, o);
    RailHoldsEachSessionOnce(sessions, documents, o);
  }

  method CountCompleted(masters: seq<Master>) returns (total: nat)
    ensures total == |Flat(masters, MasterCompleted)|
  {
    total := 0;
    for i := 0 to |masters|
      invariant total == |Flat(masters[..i], MasterCompleted)|
    {
      FlatPush(masters[..i], masters[i], MasterCompleted);
      assert masters[..i + 1] == masters[..i] + [masters[i]];
      total := total + |masters[i].completed|;
    }
    assert masters[..|masters|] == masters;
  }

  // ---------------------------------------------------------------- the cycling order

  method AppendIds(ids: seq<string>, seats: seq<Session>) returns (r: seq<string>)
    ensures r == ids + Ids(seats)
  {
    r := ids;
    for i := 0 to |seats|
      invariant r == ids + Ids(seats[..i])
    {
      FlatPush(seats[..i], seats[i], IdOf);
      assert seats[..i + 1] == seats[..i] + [seats[i]];
      r := r + [seats[i].id];
    }
    assert seats[..|seats|] == seats;
  }

  function FlatIds<T>(s: seq<T>, f: T -> seq<Session>): seq<string> {
    Ids(Flat(s, f))
  }

  lemma PushIds<T>(s: seq<T>, i: nat, f: T -> seq<Session>)
    requires i < |s|
    ensures FlatIds(s[..i + 1], f) == FlatIds(s[..i], f) + Ids(f(s[i]))
  {
    FlatPush(s[..i], s[i], f);
    assert s[..i + 1] == s[..i] + [s[i]];
    FlatAppend(Flat(s[..i], f), f(s[i]), IdOf);
  }

  lemma SectionIds(section: SprintSection)
    ensures Ids(SectionSeats(section)) == Ids(section.seats) + FlatIds(section.masters, MasterSeats)
  {
    FlatAppend(section.seats, Flat(section.masters, MasterSeats), IdOf);
  }

  lemma JoinIds(a: seq<Session>, b: seq<Session>, c: seq<Session>)
    ensures Ids(a + b + c) == Ids(a) + Ids(b) + Ids(c)
  {
    FlatAppend(a, b, IdOf);
    FlatAppend(a + b, c, IdOf);
  }

  method AppendClusters(ids: seq<string>, leaves: seq<Leaf>) returns (r: seq<string>)
    ensures r == ids + FlatIds(leaves, LeafSeats)
  {
    r := ids;
    for i := 0 to |leaves|
      invariant r == ids + FlatIds(leaves[..i], LeafSeats)
    {
      PushIds(leaves, i, LeafSeats);
      r := AppendIds(r, leaves[i].seats);
    }
    assert leaves[..|leaves|] == leaves;
  }

  method AppendMaster(ids: seq<string>, m: Master) returns (r: seq<string>)
    ensures r == ids + Ids(MasterSeats(m))
  {
    r := AppendIds(ids, Held(m.manager));
    r := AppendIds(r, Held(m.reviewer));
    r := AppendClusters(r, m.leaves);
    JoinIds(Held(m.manager), Held(m.reviewer), Flat(m.leaves, LeafSeats));
  }

  method AppendMasters(ids: seq<string>, masters: seq<Master>) returns (r: seq<string>)
    ensures r == ids + FlatIds(masters, MasterSeats)
  {
    r := ids;
    for i := 0 to |masters|
      invariant r == ids + FlatIds(masters[..i], MasterSeats)
    {
      PushIds(masters, i, MasterSeats);
      r := AppendMaster(r, masters[i]);
    }
    assert masters[..|masters|] == masters;
  }

  method AppendSections(sections: seq<SprintSection>) returns (ids: seq<string>)
    ensures ids == FlatIds(sections, SectionSeats)
  {
    ids := [];
    for i := 0 to |sections|
      invariant ids == FlatIds(sections[..i], SectionSeats)
    {
      PushIds(sections, i, SectionSeats);
      SectionIds(sections[i]);
      ids := AppendIds(ids, sections[i].seats);
      ids := AppendMasters(ids, sections[i].masters);
    }
    assert sections[..|sections|] == sections;
  }

  /** `railCycleOrder`. */
  method RailCycleOrder(model: RailModel) returns (ids: seq<string>)
    ensures ids == Ids(CycleSessions(model))
  {
    ids := AppendSections(model.sprints);
    ids := AppendMasters(ids, model.masters);
    ids := AppendIds(ids, model.unattached);
    JoinIds(Flat(model.sprints, SectionSeats), Flat(model.masters, MasterSeats), model.unattached);
  }

  // ---------------------------------------------------------------- the lists are in order

  /** Comparing by a rank and then by a string is a total preorder. */
  lemma RankedIsOrder<T(!new)>(le: (string, string) -> bool, rank: T -> int, key: T -> string, cmp: (T, T) -> bool)
    requires TotalPreorder(le)
    requires forall a, b :: cmp(a, b) == if rank(a) != rank(b) then rank(a) < rank(b) else le(key(a), key(b))
    ensures TotalPreorder(cmp)
  {
    forall a, b, c | cmp(a, b) && cmp(b, c) ensures cmp(a, c) {
      assert le(key(a), key(b)) && le(key(b), key(c)) ==> le(key(a), key(c));
    }
    forall a, b ensures cmp(a, b) || cmp(b, a) {
      assert le(key(a), key(b)) || le(key(b), key(a));
    }
  }

  lemma ComparatorsAreOrders(o: Order)
    requires TotalPreorder(o.le)
    ensures TotalPreorder(ById(o)) && TotalPreorder(ByCluster(o))
    ensures TotalPreorder(BySprintRole(o)) && TotalPreorder(ByLife(o))
    ensures TotalPreorder(LeafByPath(o)) && TotalPreorder(MasterByPath(o))
  {
    var id := (s: Session) => s.id;
    RankedIsOrder(o.le, (s: Session) => 0, id, ById(o));
    RankedIsOrder(o.le, (s: Session) => (if o.working(s) then 0 else 5) + ClusterRank(s.role), id, ByCluster(o));
    RankedIsOrder(o.le, (s: Session) => SprintRank(s.role), id, BySprintRole(o));
    RankedIsOrder(o.le, (s: Session) => if s.status.Running? then 0 else 1, id, ByLife(o));
    RankedIsOrder(o.le, (l: Leaf) => 0, (l: Leaf) => l.doc.docPath, LeafByPath(o));
    RankedIsOrder(o.le, (m: Master) => 0, (m: Master) => m.doc.docPath, MasterByPath(o));
  }

  /** The orders of seats: in clusters worker, reviewer, curator, then the rest; on sprints by command, then the rest. */
  lemma SeatOrdersAre(role: string)
    ensures ClusterRank("worker") < ClusterRank("reviewer") < ClusterRank("curator")
    ensures role != "worker" && role != "reviewer" && role != "curator" ==>
      ClusterRank("curator") < ClusterRank(role) && ClusterRank(role) == ClusterRank("")
    ensures SprintRank("architect") < SprintRank("orchestrator") < SprintRank("strategist") < SprintRank("designer") <
      SprintRank("system-specialist")
    ensures role != "architect" && role != "orchestrator" && role != "strategist" && role != "designer" &&
            role != "system-specialist" ==>
      SprintRank("system-specialist") < SprintRank(role) && SprintRank(role) == SprintRank("reviewer")
  {
  }

  /** What the comparisons put first: a working seat, a running session, the lower rank, the earlier id. */
  lemma ComparisonsAre(o: Order, a: Session, b: Session)
    ensures o.working(a) && !o.working(b) ==> ByCluster(o)(a, b) && !ByCluster(o)(b, a)
    ensures o.working(a) == o.working(b) && ClusterRank(a.role) < ClusterRank(b.role) ==>
      ByCluster(o)(a, b) && !ByCluster(o)(b, a)
    ensures o.working(a) == o.working(b) && ClusterRank(a.role) == ClusterRank(b.role) ==>
      ByCluster(o)(a, b) == o.le(a.id, b.id)
    ensures SprintRank(a.role) < SprintRank(b.role) ==> BySprintRole(o)(a, b) && !BySprintRole(o)(b, a)
    ensures SprintRank(a.role) == SprintRank(b.role) ==> BySprintRole(o)(a, b) == o.le(a.id, b.id)
    ensures a.status.Running? && !b.status.Running? ==> ByLife(o)(a, b) && !ByLife(o)(b, a)
    ensures a.status.Running? == b.status.Running? ==> ByLife(o)(a, b) == o.le(a.id, b.id)
    ensures ById(o)(a, b) == o.le(a.id, b.id)
  {
  }

  /** Every list of the model stands in its order. */
  lemma ModelIsSorted(r: Rail, o: Order)
    requires TotalPreorder(o.le)
    ensures var model := Materialized(r, o);
      && Sorted(model.unattached, ByLife(o))
      && Sorted(ShownSprints(r, o), SprintByPath(o, r.sprints))
      && (forall k :: 0 <= k < |model.sprints| ==> Sorted(model.sprints[k].seats, BySprintRole(o)))
  {
    ComparatorsAreOrders(o);
    SortSorts(r.unattached, ByLife(o));
    RankedIsOrder(o.le, (j: int) => 0, SprintPath(r.sprints), SprintByPath(o, r.sprints));
    SortSorts(Filter(Indices(|r.sprints|), SprintShown(r.sprints, Named(ShownMasters(r), r.sprints))), SprintByPath(o, r.sprints));
    var js := ShownSprints(r, o);
    SectionsCount(r.sprints, ShownMasters(r), OwnerOf(r), o, js);
    forall k | 0 <= k < |js| ensures Sorted(Materialized(r, o).sprints[k].seats, BySprintRole(o)) {
      SectionIs(r.sprints, ShownMasters(r), OwnerOf(r), o, js, k);
      SortSorts(r.sprints[js[k]].seats, BySprintRole(o));
    }
  }

  /** The section of each sprint: its seats by command, and the masters it owns. */
  lemma {:induction false} SectionIs(
    sprints: seq<Sprint>, shown: seq<Master>, owner: Master -> int, o: Order, js: seq<int>, k: nat)
    requires InRange(js, |sprints|) && k < |js|
    ensures var sections := Sections(sprints, shown, owner, o, js);
      |sections| == |js| && sections[k] == SectionFor(sprints[js[k]], shown, owner, o, js[k])
    decreases |js|
  {
    SectionsCount(sprints, shown, owner, o, js);
    if k > 0 {
      SectionIs(sprints, shown, owner, o, js[1..], k - 1);
      assert Sections(sprints, shown, owner, o, js)[k] == Sections(sprints, shown, owner, o, js[1..])[k - 1];
    }
  }

  lemma {:induction false} SectionsCount(
    sprints: seq<Sprint>, shown: seq<Master>, owner: Master -> int, o: Order, js: seq<int>)
    requires InRange(js, |sprints|)
    ensures |Sections(sprints, shown, owner, o, js)| == |js|
    decreases |js|
  {
    if js != [] { SectionsCount(sprints, shown, owner, o, js[1..]); }
  }

  /** A listed master: clusters by path, seats working-first inside each, completed by id. */
  lemma MastersAreSorted(m: Master, o: Order)
    requires TotalPreorder(o.le)
    ensures var made := Materialize(m, o);
      && Sorted(made.leaves, LeafByPath(o))
      && Sorted(made.completed, ById(o))
      && forall i :: 0 <= i < |made.leaves| ==> Sorted(made.leaves[i].seats, ByCluster(o))
  {
    ComparatorsAreOrders(o);
    var byPath := SortBy(m.leaves, LeafByPath(o));
    SortSorts(m.leaves, LeafByPath(o));
    SortSorts(m.completed, ById(o));
    forall i | 0 <= i < |byPath| ensures Sorted(SortBy(byPath[i].seats, ByCluster(o)), ByCluster(o)) {
      SortSorts(byPath[i].seats, ByCluster(o));
    }
  }
}
