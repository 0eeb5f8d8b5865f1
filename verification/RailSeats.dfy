/**
  Filing sessions into the accumulators of railModel.ts: sprints, masters with their leaf clusters,
  and the two detached lists. Labels and the gate join are not modelled.
 */
module RailSeats {
  import opened Wrappers
  import opened Sessions
  import opened Flattening

  /**
    A task document. `ref` is its canonical reference, absent when its path has none;
    `commandNames` are the names it answers to.
   */
  datatype Doc = Doc(
    repository: string,
    docPath: string,
    isMaster: bool,
    orchestrates: seq<string>,
    commandNames: seq<string>,
    ref: Option<Ref>)

  predicate IsOrchestration(doc: Doc) {
    doc.isMaster && doc.orchestrates != []
  }

  function DocumentKey(ref: Ref): string {
    ref.repository + ":" + ref.path
  }

  /** Everything before the last slash; empty when there is none. */
  function PathDir(path: string): string {
    if path == [] then ""
    else if path[|path| - 1] == '/' then path[..|path| - 1]
    else PathDir(path[..|path| - 1])
  }

  datatype Leaf = Leaf(key: string, doc: Doc, ref: Ref, seats: seq<Session>)

  datatype Master = Master(
    doc: Doc,
    ref: Ref,
    manager: Option<Session>,
    reviewer: Option<Session>,
    leaves: seq<Leaf>,
    completed: seq<Session>)

  datatype Sprint = Sprint(doc: Doc, ref: Ref, seats: seq<Session>)

  /** The accumulators. `masters` is a map by path kept as its values in insertion order. */
  datatype Rail = Rail(
    docs: map<string, Doc>,
    masters: seq<Master>,
    sprints: seq<Sprint>,
    unattached: seq<Session>,
    completedUnattached: seq<Session>)

  const SprintRoles: set<string> :=
    {"architect", "orchestrator", "strategist", "designer", "system-specialist", "reviewer"}
  const LeafRoles: set<string> := {"worker", "reviewer", "curator"}

  function MasterIndex(masters: seq<Master>, path: string): (i: nat)
    ensures i <= |masters| && (i < |masters| ==> masters[i].ref.path == path)
    ensures forall j :: 0 <= j < i ==> masters[j].ref.path != path
  {
    IndexWhere(masters, (m: Master) => m.ref.path == path)
  }

  function SprintIndex(sprints: seq<Sprint>, key: string): (i: nat)
    ensures i <= |sprints| && (i < |sprints| ==> DocumentKey(sprints[i].ref) == key)
    ensures forall j :: 0 <= j < i ==> DocumentKey(sprints[j].ref) != key
  {
    IndexWhere(sprints, (s: Sprint) => DocumentKey(s.ref) == key)
  }

  function LeafIndex(leaves: seq<Leaf>, key: string): (i: nat)
    ensures i <= |leaves| && (i < |leaves| ==> leaves[i].key == key)
    ensures forall j :: 0 <= j < i ==> leaves[j].key != key
  {
    IndexWhere(leaves, (l: Leaf) => l.key == key)
  }

  // ---------------------------------------------------------------- filing one session

  function Detach(r: Rail, s: Session): Rail {
    if s.status.Landed? then r.(completedUnattached := r.completedUnattached + [s])
    else r.(unattached := r.unattached + [s])
  }

  predicate ParentMatches(s: Session, roles: set<string>, ref: Ref) {
    s.structuralParentRole.Some? && s.structuralParentRole.value in roles && s.structuralParentRef == Some(ref)
  }

  function AttachSprint(r: Rail, s: Session, ref: Ref): Rail {
    var i := SprintIndex(r.sprints, DocumentKey(ref));
    if s.role == "reviewer" && !ParentMatches(s, {"architect", "orchestrator"}, ref) then Detach(r, s)
    else if i == |r.sprints| || s.status.Landed? then Detach(r, s)
    else r.(sprints := r.sprints[i := r.sprints[i].(seats := r.sprints[i].seats + [s])])
  }

  function SeatMaster(r: Rail, i: nat, m: Master): Rail
    requires i < |r.masters|
  {
    r.(masters := r.masters[i := m])
  }

  function AttachMaster(r: Rail, s: Session, ref: Ref): Rail {
    var i := MasterIndex(r.masters, ref.path);
    if i == |r.masters| then Detach(r, s) else
    var m := r.masters[i];
    if s.role == "reviewer" && !ParentMatches(s, {"manager"}, ref) then Detach(r, s)
    else if s.status.Landed? then SeatMaster(r, i, m.(completed := m.completed + [s]))
    else if s.role == "manager" && m.manager.None? then SeatMaster(r, i, m.(manager := Some(s)))
    else if s.role == "reviewer" && m.reviewer.None? then SeatMaster(r, i, m.(reviewer := Some(s)))
    else r.(unattached := r.unattached + [s])
  }

  function SeatLeaf(leaves: seq<Leaf>, doc: Doc, ref: Ref, s: Session): seq<Leaf> {
    var k := LeafIndex(leaves, DocumentKey(ref));
    if k == |leaves| then leaves + [Leaf(DocumentKey(ref), doc, ref, [s])]
    else leaves[k := leaves[k].(seats := leaves[k].seats + [s])]
  }

  /** Where the master of a leaf document is kept; none for a document without a reference. */
  function OwnerIndex(masters: seq<Master>, doc: Doc): (i: nat)
    ensures i <= |masters|
    ensures i < |masters| ==> doc.ref.Some? && masters[i].ref.path == PathDir(doc.ref.value.path) + "/task.json"
    ensures i == |masters| ==>
      doc.ref.None? || forall k :: 0 <= k < |masters| ==> masters[k].ref.path != PathDir(doc.ref.value.path) + "/task.json"
  {
    if doc.ref.None? then |masters| else MasterIndex(masters, PathDir(doc.ref.value.path) + "/task.json")
  }

  function AttachLeaf(r: Rail, s: Session, doc: Doc, ref: Ref): Rail {
    var i := OwnerIndex(r.masters, doc);
    if i == |r.masters| then Detach(r, s) else
    var m := r.masters[i];
    if s.role == "reviewer" && !ParentMatches(s, {"manager"}, m.ref) then Detach(r, s)
    else if s.status.Landed? then SeatMaster(r, i, m.(completed := m.completed + [s]))
    else SeatMaster(r, i, m.(leaves := SeatLeaf(m.leaves, doc, ref, s)))
  }

  /** Which of the three seat kinds the document's altitude and the role name. */
  datatype Altitude = AtSprint | AtMaster | AtLeaf | Nowhere

  function AltitudeOf(doc: Doc, role: string): Altitude {
    if IsOrchestration(doc) && role in SprintRoles then AtSprint
    else if doc.isMaster && !IsOrchestration(doc) && (role == "manager" || role == "reviewer") then AtMaster
    else if !doc.isMaster && role in LeafRoles then AtLeaf
    else Nowhere
  }

  function Attach(r: Rail, s: Session): Rail {
    if s.taskRef.None? || DocumentKey(s.taskRef.value) !in r.docs then Detach(r, s) else
    var ref := s.taskRef.value;
    var doc := r.docs[DocumentKey(ref)];
    match AltitudeOf(doc, s.role)
    case AtSprint => AttachSprint(r, s, ref)
    case AtMaster => AttachMaster(r, s, ref)
    case AtLeaf => AttachLeaf(r, s, doc, ref)
    case Nowhere => Detach(r, s)
  }

  // ---------------------------------------------------------------- what the accumulators hold

  function Held(o: Option<Session>): seq<Session> {
    if o.Some? then [o.value] else []
  }

  function LeafSeats(l: Leaf): seq<Session> { l.seats }

  /** The open sessions of a master, in the order the rail cycles through them. */
  function MasterSeats(m: Master): seq<Session> {
    Held(m.manager) + Held(m.reviewer) + Flat(m.leaves, LeafSeats)
  }

  function MasterCompleted(m: Master): seq<Session> { m.completed }

  function SprintSeats(s: Sprint): seq<Session> { s.seats }

  function Open(r: Rail): multiset<Session> {
    multiset(Flat(r.sprints, SprintSeats)) + multiset(Flat(r.masters, MasterSeats)) + multiset(r.unattached)
  }

  function Completed(r: Rail): multiset<Session> {
    multiset(Flat(r.masters, MasterCompleted)) + multiset(r.completedUnattached)
  }

  function OpenPart(s: Session): multiset<Session> {
    if s.status.Landed? then multiset{} else multiset{s}
  }

  function CompletedPart(s: Session): multiset<Session> {
    if s.status.Landed? then multiset{s} else multiset{}
  }

  /** One session came in, on the side its status names, and nothing else moved. */
  predicate Files(before: Rail, after: Rail, s: Session) {
    && Open(after) == Open(before) + OpenPart(s)
    && Completed(after) == Completed(before) + CompletedPart(s)
  }

  lemma Middle(a: multiset<Session>, b: multiset<Session>, c: multiset<Session>, e: multiset<Session>)
    ensures (a + e) + b + c == a + b + c + e
    ensures a + (b + e) + c == a + b + c + e
  {
  }

  lemma DetachFiles(r: Rail, s: Session)
    ensures Files(r, Detach(r, s), s)
  {
    Middle(multiset(Flat(r.masters, MasterCompleted)), multiset(r.completedUnattached), multiset{}, CompletedPart(s));
  }

  lemma SeatSprintFiles(r: Rail, i: nat, s: Session)
    requires i < |r.sprints| && !s.status.Landed?
    ensures Files(r, r.(sprints := r.sprints[i := r.sprints[i].(seats := r.sprints[i].seats + [s])]), s)
  {
    var it := r.sprints[i];
    FlatGrow(r.sprints, i, it.(seats := it.seats + [s]), SprintSeats, multiset{s});
    Middle(multiset(Flat(r.sprints, SprintSeats)), multiset(Flat(r.masters, MasterSeats)), multiset(r.unattached),
           multiset{s});
  }

  lemma SeatMasterFiles(r: Rail, i: nat, m: Master, s: Session)
    requires i < |r.masters|
    requires multiset(MasterSeats(m)) == multiset(MasterSeats(r.masters[i])) + OpenPart(s)
    requires multiset(MasterCompleted(m)) == multiset(MasterCompleted(r.masters[i])) + CompletedPart(s)
    ensures Files(r, SeatMaster(r, i, m), s)
  {
    FlatGrow(r.masters, i, m, MasterSeats, OpenPart(s));
    FlatGrow(r.masters, i, m, MasterCompleted, CompletedPart(s));
    Middle(multiset(Flat(r.sprints, SprintSeats)), multiset(Flat(r.masters, MasterSeats)), multiset(r.unattached),
           OpenPart(s));
    Middle(multiset(Flat(r.masters, MasterCompleted)), multiset(r.completedUnattached), multiset{}, CompletedPart(s));
  }

  lemma SeatLeafFiles(leaves: seq<Leaf>, doc: Doc, ref: Ref, s: Session)
    ensures multiset(Flat(SeatLeaf(leaves, doc, ref, s), LeafSeats)) == multiset(Flat(leaves, LeafSeats)) + multiset{s}
  {
    var k := LeafIndex(leaves, DocumentKey(ref));
    if k == |leaves| {
      FlatPush(leaves, Leaf(DocumentKey(ref), doc, ref, [s]), LeafSeats);
    } else {
      FlatGrow(leaves, k, leaves[k].(seats := leaves[k].seats + [s]), LeafSeats, multiset{s});
    }
  }

  lemma ConcatCounts(a: seq<Session>, b: seq<Session>, c: seq<Session>)
    ensures multiset(a + b + c) == multiset(a) + multiset(b) + multiset(c)
  {
  }

  /** A master whose single seat, or whose clusters, gained one session. */
  lemma MasterGains(m: Master, n: Master, s: Session)
    requires
      || (n.manager == Some(s) && m.manager.None? && n.reviewer == m.reviewer && n.leaves == m.leaves)
      || (n.reviewer == Some(s) && m.reviewer.None? && n.manager == m.manager && n.leaves == m.leaves)
      || (n.manager == m.manager && n.reviewer == m.reviewer &&
          multiset(Flat(n.leaves, LeafSeats)) == multiset(Flat(m.leaves, LeafSeats)) + multiset{s})
    ensures multiset(MasterSeats(n)) == multiset(MasterSeats(m)) + multiset{s}
  {
    ConcatCounts(Held(m.manager), Held(m.reviewer), Flat(m.leaves, LeafSeats));
    ConcatCounts(Held(n.manager), Held(n.reviewer), Flat(n.leaves, LeafSeats));
    Middle(multiset(Held(m.manager)), multiset(Held(m.reviewer)), multiset(Flat(m.leaves, LeafSeats)), multiset{s});
    Regroup(multiset(Held(m.manager)) + multiset(Held(m.reviewer)), multiset(Flat(m.leaves, LeafSeats)), multiset{s},
            multiset(Flat(m.leaves, LeafSeats)) + multiset{s});
  }

  lemma SeatCompletedFiles(r: Rail, i: nat, s: Session)
    requires i < |r.masters| && s.status.Landed?
    ensures Files(r, SeatMaster(r, i, r.masters[i].(completed := r.masters[i].completed + [s])), s)
  {
    var m := r.masters[i].(completed := r.masters[i].completed + [s]);
    assert MasterSeats(m) == MasterSeats(r.masters[i]);
    SeatMasterFiles(r, i, m, s);
  }

  lemma SeatOpenFiles(r: Rail, i: nat, m: Master, s: Session)
    requires i < |r.masters| && !s.status.Landed?
    requires m.completed == r.masters[i].completed
    requires multiset(MasterSeats(m)) == multiset(MasterSeats(r.masters[i])) + multiset{s}
    ensures Files(r, SeatMaster(r, i, m), s)
  {
    SeatMasterFiles(r, i, m, s);
  }

  lemma AttachMasterFiles(r: Rail, s: Session, ref: Ref)
    requires s.role == "manager" || s.role == "reviewer"
    ensures Files(r, AttachMaster(r, s, ref), s)
  {
    var i := MasterIndex(r.masters, ref.path);
    if i == |r.masters| {
      DetachFiles(r, s);
    } else {
      var m := r.masters[i];
      if s.role == "reviewer" && !ParentMatches(s, {"manager"}, ref) {
        DetachFiles(r, s);
      } else if s.status.Landed? {
        SeatCompletedFiles(r, i, s);
      } else if s.role == "manager" && m.manager.None? {
        MasterGains(m, m.(manager := Some(s)), s);
        SeatOpenFiles(r, i, m.(manager := Some(s)), s);
      } else if s.role == "reviewer" && m.reviewer.None? {
        MasterGains(m, m.(reviewer := Some(s)), s);
        SeatOpenFiles(r, i, m.(reviewer := Some(s)), s);
      } else {
        DetachFiles(r, s);
      }
    }
  }

  lemma AttachLeafFiles(r: Rail, s: Session, doc: Doc, ref: Ref)
    ensures Files(r, AttachLeaf(r, s, doc, ref), s)
  {
    var i := OwnerIndex(r.masters, doc);
    if i == |r.masters| {
      DetachFiles(r, s);
    } else {
      var m := r.masters[i];
      if s.role == "reviewer" && !ParentMatches(s, {"manager"}, m.ref) {
        DetachFiles(r, s);
      } else if s.status.Landed? {
        SeatCompletedFiles(r, i, s);
      } else {
        SeatLeafFiles(m.leaves, doc, ref, s);
        MasterGains(m, m.(leaves := SeatLeaf(m.leaves, doc, ref, s)), s);
        SeatOpenFiles(r, i, m.(leaves := SeatLeaf(m.leaves, doc, ref, s)), s);
      }
    }
  }

  /** Whatever branch is taken, filing a session adds it exactly once. */
  lemma AttachFiles(r: Rail, s: Session)
    ensures Files(r, Attach(r, s), s)
  {
    DetachFiles(r, s);
    if s.taskRef.Some? && DocumentKey(s.taskRef.value) in r.docs {
      var ref := s.taskRef.value;
      var doc := r.docs[DocumentKey(ref)];
      match AltitudeOf(doc, s.role)
      case AtSprint =>
        var i := SprintIndex(r.sprints, DocumentKey(ref));
        if i < |r.sprints| && !s.status.Landed? { SeatSprintFiles(r, i, s); }
      case AtMaster => AttachMasterFiles(r, s, ref);
      case AtLeaf => AttachLeafFiles(r, s, doc, ref);
      case Nowhere =>
    }
  }

  // ---------------------------------------------------------------- who may sit where

  /** The documents, masters and sprints themselves do not move while sessions are filed. */
  predicate SameFrame(a: Rail, b: Rail) {
    && a.docs == b.docs
    && |a.masters| == |b.masters| && (forall i :: 0 <= i < |a.masters| ==> a.masters[i].ref == b.masters[i].ref)
    && |a.sprints| == |b.sprints| && (forall i :: 0 <= i < |a.sprints| ==> a.sprints[i].ref == b.sprints[i].ref)
  }

  predicate MaySit(r: Rail, s: Session, altitude: Altitude) {
    && s.taskRef.Some? && DocumentKey(s.taskRef.value) in r.docs
    && AltitudeOf(r.docs[DocumentKey(s.taskRef.value)], s.role) == altitude
  }

  predicate SprintSeatOk(r: Rail, sprint: Sprint, s: Session) {
    && MaySit(r, s, AtSprint) && !s.status.Landed?
    && DocumentKey(s.taskRef.value) == DocumentKey(sprint.ref)
    && (s.role == "reviewer" ==> ParentMatches(s, {"architect", "orchestrator"}, s.taskRef.value))
  }

  predicate MasterSeatOk(r: Rail, m: Master, s: Session, role: string) {
    && MaySit(r, s, AtMaster) && !s.status.Landed?
    && s.role == role && s.taskRef.value.path == m.ref.path
    && (role == "reviewer" ==> ParentMatches(s, {"manager"}, s.taskRef.value))
  }

  predicate LeafSeatOk(r: Rail, m: Master, key: string, s: Session) {
    && MaySit(r, s, AtLeaf) && !s.status.Landed?
    && DocumentKey(s.taskRef.value) == key
    && var doc := r.docs[key];
    && doc.ref.Some? && m.ref.path == PathDir(doc.ref.value.path) + "/task.json"
    && (s.role == "reviewer" ==> ParentMatches(s, {"manager"}, m.ref))
  }

  predicate MasterOk(r: Rail, m: Master) {
    && (m.manager.Some? ==> MasterSeatOk(r, m, m.manager.value, "manager"))
    && (m.reviewer.Some? ==> MasterSeatOk(r, m, m.reviewer.value, "reviewer"))
    && (forall k, s :: 0 <= k < |m.leaves| && s in m.leaves[k].seats ==> LeafSeatOk(r, m, m.leaves[k].key, s))
    && (forall i, j :: 0 <= i < j < |m.leaves| ==> m.leaves[i].key != m.leaves[j].key)
  }

  /** A session left detached has no seat of its altitude, or the single seat is taken. */
  predicate DetachedOk(r: Rail, s: Session) {
    if s.taskRef.None? || DocumentKey(s.taskRef.value) !in r.docs then true else
    var ref := s.taskRef.value;
    var doc := r.docs[DocumentKey(ref)];
    match AltitudeOf(doc, s.role)
    case AtSprint =>
      || SprintIndex(r.sprints, DocumentKey(ref)) == |r.sprints|
      || (s.role == "reviewer" && !ParentMatches(s, {"architect", "orchestrator"}, ref))
    case AtMaster =>
      var i := MasterIndex(r.masters, ref.path);
      || i == |r.masters|
      || (s.role == "reviewer" && !ParentMatches(s, {"manager"}, ref))
      || (s.role == "manager" && r.masters[i].manager.Some?)
      || (s.role == "reviewer" && r.masters[i].reviewer.Some?)
    case AtLeaf =>
      var i := OwnerIndex(r.masters, doc);
      i == |r.masters| || (s.role == "reviewer" && !ParentMatches(s, {"manager"}, r.masters[i].ref))
    case Nowhere => true
  }

  ghost predicate WellSeated(r: Rail) {
    && (forall i, s :: 0 <= i < |r.sprints| && s in r.sprints[i].seats ==> SprintSeatOk(r, r.sprints[i], s))
    && (forall i :: 0 <= i < |r.masters| ==> MasterOk(r, r.masters[i]))
    && (forall s <- r.unattached :: DetachedOk(r, s))
  }

  // ---------------------------------------------------------------- the rules, written out

  /** Which seat a document's altitude and a role name. */
  lemma AltitudesAre(doc: Doc, role: string)
    ensures AltitudeOf(doc, role) == AtSprint <==>
      && doc.isMaster && |doc.orchestrates| > 0
      && (role == "architect" || role == "orchestrator" || role == "strategist" || role == "designer" ||
          role == "system-specialist" || role == "reviewer")
    ensures AltitudeOf(doc, role) == AtMaster <==>
      doc.isMaster && |doc.orchestrates| == 0 && (role == "manager" || role == "reviewer")
    ensures AltitudeOf(doc, role) == AtLeaf <==>
      !doc.isMaster && (role == "worker" || role == "reviewer" || role == "curator")
  {
  }

  lemma ParentsMatchWhen(s: Session, roles: set<string>, ref: Ref)
    ensures ParentMatches(s, roles, ref) <==>
      && s.structuralParentRole.Some? && s.structuralParentRole.value in roles
      && s.structuralParentRef.Some?
      && s.structuralParentRef.value.repository == ref.repository && s.structuralParentRef.value.path == ref.path
  {
  }

  predicate HasNoSlash(name: string) {
    forall i :: 0 <= i < |name| ==> name[i] != '/'
  }

  /** The directory of a path is what stands before its last slash. */
  lemma {:induction false} PathDirIs(dir: string, name: string)
    requires HasNoSlash(name)
    ensures PathDir(dir + "/" + name) == dir
    ensures PathDir(name) == ""
  {
    var path := dir + "/" + name;
    if name == "" {
      assert path[..|path| - 1] == dir;
    } else {
      var shorter := name[..|name| - 1];
      PathDirIs(dir, shorter);
      assert path[..|path| - 1] == dir + "/" + shorter && path[|path| - 1] == name[|name| - 1];
    }
  }

  /** Filing never removes a document, a section, or the holder of a single seat. */
  predicate Grows(a: Rail, b: Rail) {
    && SameFrame(a, b)
    && forall i :: 0 <= i < |a.masters| ==>
         && (a.masters[i].manager.Some? ==> b.masters[i].manager.Some?)
         && (a.masters[i].reviewer.Some? ==> b.masters[i].reviewer.Some?)
  }

  lemma SameIndexes(a: Rail, b: Rail, path: string, key: string)
    requires SameFrame(a, b)
    ensures MasterIndex(a.masters, path) == MasterIndex(b.masters, path)
    ensures SprintIndex(a.sprints, key) == SprintIndex(b.sprints, key)
  {
    var i, j := MasterIndex(a.masters, path), MasterIndex(b.masters, path);
    assert i < |a.masters| ==> b.masters[i].ref.path == path;
    assert j < |a.masters| ==> a.masters[j].ref.path == path;
    var k, l := SprintIndex(a.sprints, key), SprintIndex(b.sprints, key);
    assert k < |a.sprints| ==> DocumentKey(b.sprints[k].ref) == key;
    assert l < |a.sprints| ==> DocumentKey(a.sprints[l].ref) == key;
  }

  lemma SameOwner(a: Rail, b: Rail, doc: Doc)
    requires SameFrame(a, b)
    ensures OwnerIndex(a.masters, doc) == OwnerIndex(b.masters, doc)
  {
    if doc.ref.Some? { SameIndexes(a, b, PathDir(doc.ref.value.path) + "/task.json", ""); }
  }

  lemma SeatMasterGrows(r: Rail, i: nat, m: Master)
    requires i < |r.masters| && m.ref == r.masters[i].ref
    requires r.masters[i].manager.Some? ==> m.manager.Some?
    requires r.masters[i].reviewer.Some? ==> m.reviewer.Some?
    ensures Grows(r, SeatMaster(r, i, m))
  {
  }

  lemma AttachMasterGrows(r: Rail, s: Session, ref: Ref)
    ensures Grows(r, AttachMaster(r, s, ref))
  {
    var i := MasterIndex(r.masters, ref.path);
    if i < |r.masters| && AttachMaster(r, s, ref).masters != r.masters {
      SeatMasterGrows(r, i, AttachMaster(r, s, ref).masters[i]);
    }
  }

  lemma AttachLeafGrows(r: Rail, s: Session, doc: Doc, ref: Ref)
    ensures Grows(r, AttachLeaf(r, s, doc, ref))
  {
    var i := OwnerIndex(r.masters, doc);
    if i < |r.masters| && AttachLeaf(r, s, doc, ref).masters != r.masters {
      SeatMasterGrows(r, i, AttachLeaf(r, s, doc, ref).masters[i]);
    }
  }

  lemma AttachSprintGrows(r: Rail, s: Session, ref: Ref)
    ensures Grows(r, AttachSprint(r, s, ref))
  {
  }

  lemma AttachGrows(r: Rail, s: Session)
    ensures Grows(r, Attach(r, s))
  {
    if s.taskRef.Some? && DocumentKey(s.taskRef.value) in r.docs {
      AttachSprintGrows(r, s, s.taskRef.value);
      AttachMasterGrows(r, s, s.taskRef.value);
      AttachLeafGrows(r, s, r.docs[DocumentKey(s.taskRef.value)], s.taskRef.value);
    }
  }

  lemma StaysDetached(a: Rail, b: Rail, s: Session)
    requires Grows(a, b) && DetachedOk(a, s)
    ensures DetachedOk(b, s)
  {
    if s.taskRef.Some? && DocumentKey(s.taskRef.value) in a.docs {
      var doc := a.docs[DocumentKey(s.taskRef.value)];
      SameIndexes(a, b, s.taskRef.value.path, DocumentKey(s.taskRef.value));
      SameOwner(a, b, doc);
    }
  }

  /** The parts of a rail that only refer to its documents carry over. */
  lemma SeatsCarryOver(a: Rail, b: Rail, m: Master)
    requires a.docs == b.docs && MasterOk(a, m)
    ensures MasterOk(b, m)
  {
    if m.manager.Some? { assert MasterSeatOk(b, m, m.manager.value, "manager"); }
    if m.reviewer.Some? { assert MasterSeatOk(b, m, m.reviewer.value, "reviewer"); }
    forall k, s | 0 <= k < |m.leaves| && s in m.leaves[k].seats ensures LeafSeatOk(b, m, m.leaves[k].key, s) {
      assert LeafSeatOk(a, m, m.leaves[k].key, s);
    }
  }

  lemma KeepsSeated(a: Rail, b: Rail)
    requires WellSeated(a) && Grows(a, b)
    requires forall i, s :: 0 <= i < |b.sprints| && s in b.sprints[i].seats ==>
      s in a.sprints[i].seats || SprintSeatOk(b, b.sprints[i], s)
    requires forall i :: 0 <= i < |b.masters| ==> b.masters[i] == a.masters[i] || MasterOk(b, b.masters[i])
    requires forall s <- b.unattached :: s in a.unattached || DetachedOk(b, s)
    ensures WellSeated(b)
  {
    forall i, s | 0 <= i < |b.sprints| && s in b.sprints[i].seats ensures SprintSeatOk(b, b.sprints[i], s) {
      if s in a.sprints[i].seats { assert SprintSeatOk(a, a.sprints[i], s); }
    }
    forall i | 0 <= i < |b.masters| ensures MasterOk(b, b.masters[i]) {
      if b.masters[i] == a.masters[i] { SeatsCarryOver(a, b, a.masters[i]); }
    }
    forall s <- b.unattached ensures DetachedOk(b, s) {
      if s in a.unattached { StaysDetached(a, b, s); }
    }
  }

  lemma DetachKeepsSeated(r: Rail, s: Session)
    requires WellSeated(r) && DetachedOk(r, s)
    ensures WellSeated(Detach(r, s))
  {
    var after := Detach(r, s);
    StaysDetached(r, after, s);
    KeepsSeated(r, after);
  }

  lemma SeatMasterKeepsSeated(r: Rail, i: nat, m: Master)
    requires WellSeated(r) && i < |r.masters|
    requires m.ref == r.masters[i].ref
    requires r.masters[i].manager.Some? ==> m.manager.Some?
    requires r.masters[i].reviewer.Some? ==> m.reviewer.Some?
    requires MasterOk(r, m)
    ensures WellSeated(SeatMaster(r, i, m))
  {
    var after := SeatMaster(r, i, m);
    SeatsCarryOver(r, after, m);
    KeepsSeated(r, after);
  }

  lemma AttachSprintKeepsSeated(r: Rail, s: Session, ref: Ref)
    requires WellSeated(r) && MaySit(r, s, AtSprint) && s.taskRef.value == ref
    ensures WellSeated(AttachSprint(r, s, ref))
  {
    var i := SprintIndex(r.sprints, DocumentKey(ref));
    var after := AttachSprint(r, s, ref);
    if after == Detach(r, s) {
      if s.status.Landed? {
        KeepsSeated(r, after);
      } else {
        DetachKeepsSeated(r, s);
      }
    } else {
      assert SprintSeatOk(after, after.sprints[i], s);
      KeepsSeated(r, after);
    }
  }

  lemma AttachMasterKeepsSeated(r: Rail, s: Session, ref: Ref)
    requires WellSeated(r) && MaySit(r, s, AtMaster) && s.taskRef.value == ref
    ensures WellSeated(AttachMaster(r, s, ref))
  {
    var i := MasterIndex(r.masters, ref.path);
    if i == |r.masters| || (s.role == "reviewer" && !ParentMatches(s, {"manager"}, ref)) {
      DetachKeepsSeated(r, s);
    } else {
      var m := r.masters[i];
      assert MasterOk(r, m);
      if s.status.Landed? {
        SameSeatsOk(r, m, m.(completed := m.completed + [s]));
        SeatMasterKeepsSeated(r, i, m.(completed := m.completed + [s]));
      } else if s.role == "manager" && m.manager.None? {
        NewHolderOk(r, m, s);
        SeatMasterKeepsSeated(r, i, m.(manager := Some(s)));
      } else if s.role == "reviewer" && m.reviewer.None? {
        NewHolderOk(r, m, s);
        SeatMasterKeepsSeated(r, i, m.(reviewer := Some(s)));
      } else {
        DetachKeepsSeated(r, s);
      }
    }
  }

  lemma SameSeatsOk(r: Rail, m: Master, n: Master)
    requires MasterOk(r, m) && n == m.(completed := n.completed)
    ensures MasterOk(r, n)
  {
    if m.manager.Some? { assert MasterSeatOk(r, n, m.manager.value, "manager"); }
    if m.reviewer.Some? { assert MasterSeatOk(r, n, m.reviewer.value, "reviewer"); }
    forall k, s | 0 <= k < |n.leaves| && s in n.leaves[k].seats ensures LeafSeatOk(r, n, n.leaves[k].key, s) {
      assert LeafSeatOk(r, m, m.leaves[k].key, s);
    }
  }

  lemma NewHolderOk(r: Rail, m: Master, s: Session)
    requires MasterOk(r, m)
    ensures MasterSeatOk(r, m, s, "manager") ==> MasterOk(r, m.(manager := Some(s)))
    ensures MasterSeatOk(r, m, s, "reviewer") ==> MasterOk(r, m.(reviewer := Some(s)))
  {
    forall k, t | 0 <= k < |m.leaves| && t in m.leaves[k].seats
      ensures LeafSeatOk(r, m.(manager := Some(s)), m.leaves[k].key, t)
      ensures LeafSeatOk(r, m.(reviewer := Some(s)), m.leaves[k].key, t)
    {
      assert LeafSeatOk(r, m, m.leaves[k].key, t);
    }
  }

  lemma AttachLeafKeepsSeated(r: Rail, s: Session, doc: Doc, ref: Ref)
    requires WellSeated(r) && MaySit(r, s, AtLeaf) && s.taskRef.value == ref && doc == r.docs[DocumentKey(ref)]
    ensures WellSeated(AttachLeaf(r, s, doc, ref))
  {
    var i := OwnerIndex(r.masters, doc);
    if i == |r.masters| || (s.role == "reviewer" && !ParentMatches(s, {"manager"}, r.masters[i].ref)) {
      DetachKeepsSeated(r, s);
    } else {
      var m := r.masters[i];
      assert MasterOk(r, m);
      if s.status.Landed? {
        SameSeatsOk(r, m, m.(completed := m.completed + [s]));
        SeatMasterKeepsSeated(r, i, m.(completed := m.completed + [s]));
      } else {
        assert LeafSeatOk(r, m, DocumentKey(ref), s);
        NewLeafOk(r, m, doc, ref, s);
        SeatMasterKeepsSeated(r, i, m.(leaves := SeatLeaf(m.leaves, doc, ref, s)));
      }
    }
  }

  lemma NewLeafOk(r: Rail, m: Master, doc: Doc, ref: Ref, s: Session)
    requires MasterOk(r, m) && LeafSeatOk(r, m, DocumentKey(ref), s)
    ensures MasterOk(r, m.(leaves := SeatLeaf(m.leaves, doc, ref, s)))
  {
    var n := m.(leaves := SeatLeaf(m.leaves, doc, ref, s));
    forall k, t | 0 <= k < |n.leaves| && t in n.leaves[k].seats ensures LeafSeatOk(r, n, n.leaves[k].key, t) {
      if t != s { assert LeafSeatOk(r, m, m.leaves[k].key, t); }
    }
    if m.manager.Some? { assert MasterSeatOk(r, n, m.manager.value, "manager"); }
    if m.reviewer.Some? { assert MasterSeatOk(r, n, m.reviewer.value, "reviewer"); }
  }

  /** Filing seats a session only where its document, role and parent allow, and detaches it only then. */
  lemma AttachKeepsSeated(r: Rail, s: Session)
    requires WellSeated(r)
    ensures WellSeated(Attach(r, s))
  {
    if s.taskRef.None? || DocumentKey(s.taskRef.value) !in r.docs {
      DetachKeepsSeated(r, s);
    } else {
      var ref := s.taskRef.value;
      var doc := r.docs[DocumentKey(ref)];
      match AltitudeOf(doc, s.role)
      case AtSprint => AttachSprintKeepsSeated(r, s, ref);
      case AtMaster => AttachMasterKeepsSeated(r, s, ref);
      case AtLeaf => AttachLeafKeepsSeated(r, s, doc, ref);
      case Nowhere => DetachKeepsSeated(r, s);
    }
  }

  // ---------------------------------------------------------------- where the landed go

  predicate NoMasterAt(r: Rail, path: string) {
    forall k :: 0 <= k < |r.masters| ==> r.masters[k].ref.path != path
  }

  /** A landed session in a master's folder held a seat of that master or of one of its leaves. */
  predicate LandedUnder(docs: map<string, Doc>, master: Ref, s: Session) {
    && s.status.Landed? && s.taskRef.Some? && DocumentKey(s.taskRef.value) in docs
    && var doc := docs[DocumentKey(s.taskRef.value)];
    match AltitudeOf(doc, s.role)
    case AtMaster =>
      s.taskRef.value.path == master.path && (s.role == "reviewer" ==> ParentMatches(s, {"manager"}, s.taskRef.value))
    case AtLeaf =>
      && doc.ref.Some? && master.path == PathDir(doc.ref.value.path) + "/task.json"
      && (s.role == "reviewer" ==> ParentMatches(s, {"manager"}, master))
    case _ => false
  }

  /** The master at the path is not the session's structural parent. */
  predicate HasOtherParent(r: Rail, path: string, s: Session) {
    exists k :: 0 <= k < |r.masters| && r.masters[k].ref.path == path && !ParentMatches(s, {"manager"}, r.masters[k].ref)
  }

  /** A landed session outside every folder had no master's seat, or not by its parent. */
  predicate LandedOutside(r: Rail, s: Session) {
    && s.status.Landed?
    && (s.taskRef.Some? && DocumentKey(s.taskRef.value) in r.docs ==>
          var doc := r.docs[DocumentKey(s.taskRef.value)];
          match AltitudeOf(doc, s.role)
          case AtMaster =>
            NoMasterAt(r, s.taskRef.value.path) ||
            (s.role == "reviewer" && !ParentMatches(s, {"manager"}, s.taskRef.value))
          case AtLeaf =>
            || doc.ref.None? || NoMasterAt(r, PathDir(doc.ref.value.path) + "/task.json")
            || (s.role == "reviewer" && HasOtherParent(r, PathDir(doc.ref.value.path) + "/task.json", s))
          case _ => true)
  }

  ghost predicate LandedWell(r: Rail) {
    && (forall i, s :: 0 <= i < |r.masters| && s in r.masters[i].completed ==> LandedUnder(r.docs, r.masters[i].ref, s))
    && (forall s <- r.completedUnattached :: LandedOutside(r, s))
    && (forall s <- r.unattached :: !s.status.Landed?)
  }

  lemma StaysOutside(a: Rail, b: Rail, s: Session)
    requires SameFrame(a, b) && LandedOutside(a, s)
    ensures LandedOutside(b, s)
  {
    if s.taskRef.Some? && DocumentKey(s.taskRef.value) in a.docs {
      var doc := a.docs[DocumentKey(s.taskRef.value)];
      if AltitudeOf(doc, s.role) == AtLeaf && doc.ref.Some? &&
         !NoMasterAt(a, PathDir(doc.ref.value.path) + "/task.json")
      {
        assert HasOtherParent(a, PathDir(doc.ref.value.path) + "/task.json", s);
        var k :| 0 <= k < |a.masters| && a.masters[k].ref.path == PathDir(doc.ref.value.path) + "/task.json" &&
          !ParentMatches(s, {"manager"}, a.masters[k].ref);
        assert b.masters[k].ref == a.masters[k].ref;
      }
    }
  }

  /** What one filing adds to the completed lists is placed by the rules. */
  lemma LandedCarriesOver(a: Rail, b: Rail)
    requires LandedWell(a) && SameFrame(a, b)
    requires forall i, s :: 0 <= i < |b.masters| && s in b.masters[i].completed ==>
      s in a.masters[i].completed || LandedUnder(b.docs, b.masters[i].ref, s)
    requires forall s <- b.completedUnattached :: s in a.completedUnattached || LandedOutside(b, s)
    requires forall s <- b.unattached :: s in a.unattached || !s.status.Landed?
    ensures LandedWell(b)
  {
    forall s <- b.completedUnattached ensures LandedOutside(b, s) {
      if s in a.completedUnattached { StaysOutside(a, b, s); }
    }
  }

  lemma DetachKeepsLanded(r: Rail, s: Session)
    requires LandedWell(r) && (s.status.Landed? ==> LandedOutside(r, s))
    ensures LandedWell(Detach(r, s))
  {
    var after := Detach(r, s);
    if s.status.Landed? { StaysOutside(r, after, s); }
    LandedCarriesOver(r, after);
  }

  lemma SeatMasterKeepsLanded(r: Rail, i: nat, m: Master, s: Session)
    requires LandedWell(r) && i < |r.masters| && m.ref == r.masters[i].ref
    requires m.completed == r.masters[i].completed ||
      (m.completed == r.masters[i].completed + [s] && LandedUnder(r.docs, m.ref, s))
    ensures LandedWell(SeatMaster(r, i, m))
  {
    LandedCarriesOver(r, SeatMaster(r, i, m));
  }

  lemma AttachMasterKeepsLanded(r: Rail, s: Session, ref: Ref)
    requires LandedWell(r) && MaySit(r, s, AtMaster) && s.taskRef.value == ref
    ensures LandedWell(AttachMaster(r, s, ref))
  {
    var i := MasterIndex(r.masters, ref.path);
    if i == |r.masters| || (s.role == "reviewer" && !ParentMatches(s, {"manager"}, ref)) {
      DetachKeepsLanded(r, s);
    } else {
      var m := r.masters[i];
      if s.status.Landed? {
        SeatMasterKeepsLanded(r, i, m.(completed := m.completed + [s]), s);
      } else if s.role == "manager" && m.manager.None? {
        SeatMasterKeepsLanded(r, i, m.(manager := Some(s)), s);
      } else if s.role == "reviewer" && m.reviewer.None? {
        SeatMasterKeepsLanded(r, i, m.(reviewer := Some(s)), s);
      } else {
        DetachKeepsLanded(r, s);
      }
    }
  }

  lemma AttachLeafKeepsLanded(r: Rail, s: Session, doc: Doc, ref: Ref)
    requires LandedWell(r) && MaySit(r, s, AtLeaf) && s.taskRef.value == ref && doc == r.docs[DocumentKey(ref)]
    ensures LandedWell(AttachLeaf(r, s, doc, ref))
  {
    var i := OwnerIndex(r.masters, doc);
    if i == |r.masters| || (s.role == "reviewer" && !ParentMatches(s, {"manager"}, r.masters[i].ref)) {
      DetachKeepsLanded(r, s);
    } else {
      var m := r.masters[i];
      if s.status.Landed? {
        SeatMasterKeepsLanded(r, i, m.(completed := m.completed + [s]), s);
      } else {
        SeatMasterKeepsLanded(r, i, m.(leaves := SeatLeaf(m.leaves, doc, ref, s)), s);
      }
    }
  }

  lemma AttachSprintKeepsLanded(r: Rail, s: Session, ref: Ref)
    requires LandedWell(r) && MaySit(r, s, AtSprint) && s.taskRef.value == ref
    ensures LandedWell(AttachSprint(r, s, ref))
  {
    var after := AttachSprint(r, s, ref);
    if after == Detach(r, s) {
      DetachKeepsLanded(r, s);
    } else {
      LandedCarriesOver(r, after);
    }
  }

  /** Filing puts a landed session in the folder of the master whose seat it held, and only otherwise outside. */
  lemma AttachKeepsLanded(r: Rail, s: Session)
    requires LandedWell(r)
    ensures LandedWell(Attach(r, s))
  {
    if s.taskRef.None? || DocumentKey(s.taskRef.value) !in r.docs {
      DetachKeepsLanded(r, s);
    } else {
      var ref := s.taskRef.value;
      var doc := r.docs[DocumentKey(ref)];
      match AltitudeOf(doc, s.role)
      case AtSprint => AttachSprintKeepsLanded(r, s, ref);
      case AtMaster => AttachMasterKeepsLanded(r, s, ref);
      case AtLeaf => AttachLeafKeepsLanded(r, s, doc, ref);
      case Nowhere => DetachKeepsLanded(r, s);
    }
  }

  // ---------------------------------------------------------------- the whole filing run

  function AttachAll(r: Rail, sessions: seq<Session>): Rail
    decreases |sessions|
  {
    if sessions == [] then r else AttachAll(Attach(r, sessions[0]), sessions[1..])
  }

  function OpenOf(sessions: seq<Session>): seq<Session> {
    Filter(sessions, (s: Session) => !s.status.Landed?)
  }

  function LandedOf(sessions: seq<Session>): seq<Session> {
    Filter(sessions, (s: Session) => s.status.Landed?)
  }

  /** Every session is filed exactly once: landed ones as completed, the others as open. */
  lemma {:induction false} AttachAllFiles(r: Rail, sessions: seq<Session>)
    ensures Open(AttachAll(r, sessions)) == Open(r) + multiset(OpenOf(sessions))
    ensures Completed(AttachAll(r, sessions)) == Completed(r) + multiset(LandedOf(sessions))
    decreases |sessions|
  {
    if sessions != [] {
      var s, rest := sessions[0], sessions[1..];
      AttachFiles(r, s);
      AttachAllFiles(Attach(r, s), rest);
      Regroup(Open(r), OpenPart(s), multiset(OpenOf(rest)), multiset(OpenOf(sessions)));
      Regroup(Completed(r), CompletedPart(s), multiset(LandedOf(rest)), multiset(LandedOf(sessions)));
    }
  }

  /** And every one sits where the rules allow. */
  lemma {:induction false} AttachAllSeats(r: Rail, sessions: seq<Session>)
    requires WellSeated(r) && LandedWell(r)
    ensures WellSeated(AttachAll(r, sessions)) && LandedWell(AttachAll(r, sessions))
    ensures SameFrame(r, AttachAll(r, sessions))
    decreases |sessions|
  {
    if sessions != [] {
      AttachKeepsSeated(r, sessions[0]);
      AttachKeepsLanded(r, sessions[0]);
      AttachGrows(r, sessions[0]);
      AttachAllSeats(Attach(r, sessions[0]), sessions[1..]);
    }
  }

  lemma Regroup(a: multiset<Session>, b: multiset<Session>, c: multiset<Session>, d: multiset<Session>)
    requires d == b + c
    ensures (a + b) + c == a + d
  {
  }

  // ---------------------------------------------------------------- the empty accumulators

  function SetMaster(masters: seq<Master>, m: Master): seq<Master> {
    var i := MasterIndex(masters, m.ref.path);
    if i == |masters| then masters + [m] else masters[i := m]
  }

  function AddDocument(r: Rail, doc: Doc): Rail {
    if doc.ref.None? then r else
    var ref := doc.ref.value;
    var indexed := r.(docs := r.docs[DocumentKey(ref) := doc]);
    if !doc.isMaster then indexed else
    var filed := indexed.(masters := SetMaster(r.masters, Master(doc, ref, None, None, [], [])));
    if IsOrchestration(doc) then filed.(sprints := r.sprints + [Sprint(doc, ref, [])]) else filed
  }

  function Initial(docs: seq<Doc>): Rail {
    if docs == [] then Rail(map[], [], [], [], []) else AddDocument(Initial(docs[..|docs| - 1]), docs[|docs| - 1])
  }

  predicate Empty(r: Rail) {
    && (forall i :: 0 <= i < |r.sprints| ==> r.sprints[i].seats == [])
    && (forall i :: 0 <= i < |r.masters| ==>
          r.masters[i].manager.None? && r.masters[i].reviewer.None? &&
          r.masters[i].leaves == [] && r.masters[i].completed == [])
    && r.unattached == [] && r.completedUnattached == []
  }

  predicate UniquePaths(masters: seq<Master>) {
    forall i, j :: 0 <= i < j < |masters| ==> masters[i].ref.path != masters[j].ref.path
  }

  lemma SetMasterKeeps(masters: seq<Master>, m: Master)
    requires UniquePaths(masters)
    ensures UniquePaths(SetMaster(masters, m))
    ensures forall n <- SetMaster(masters, m) :: n == m || n in masters
  {
  }

  lemma AddDocumentKeeps(r: Rail, doc: Doc)
    requires Empty(r) && UniquePaths(r.masters)
    ensures Empty(AddDocument(r, doc)) && UniquePaths(AddDocument(r, doc).masters)
  {
    if doc.ref.Some? && doc.isMaster {
      var masters := SetMaster(r.masters, Master(doc, doc.ref.value, None, None, [], []));
      SetMasterKeeps(r.masters, Master(doc, doc.ref.value, None, None, [], []));
      assert AddDocument(r, doc).masters == masters;
      assert forall i :: 0 <= i < |masters| ==> masters[i] in masters;
    }
  }

  lemma {:induction false} InitialIsEmpty(docs: seq<Doc>)
    ensures Empty(Initial(docs)) && UniquePaths(Initial(docs).masters)
  {
    if docs != [] {
      InitialIsEmpty(docs[..|docs| - 1]);
      AddDocumentKeeps(Initial(docs[..|docs| - 1]), docs[|docs| - 1]);
    }
  }

  lemma {:induction false} FlatOfNothing<T>(s: seq<T>, f: T -> seq<Session>)
    requires forall i :: 0 <= i < |s| ==> f(s[i]) == []
    ensures Flat(s, f) == []
  {
    if s != [] { FlatOfNothing(s[1..], f); }
  }

  lemma EmptyHoldsNothing(r: Rail)
    requires Empty(r)
    ensures Open(r) == multiset{} && Completed(r) == multiset{} && WellSeated(r) && LandedWell(r)
  {
    FlatOfNothing(r.sprints, SprintSeats);
    FlatOfNothing(r.masters, MasterSeats);
    FlatOfNothing(r.masters, MasterCompleted);
  }

  // ---------------------------------------------------------------- the documents behind the rail

  predicate HasKey(doc: Doc, key: string) {
    doc.ref.Some? && DocumentKey(doc.ref.value) == key
  }

  predicate IsMasterAt(doc: Doc, path: string) {
    doc.isMaster && doc.ref.Some? && doc.ref.value.path == path
  }

  predicate IsSprintDoc(doc: Doc) {
    doc.ref.Some? && doc.isMaster && |doc.orchestrates| > 0
  }

  /** The last document of the list that `p` holds of, if any. */
  function LastWhere(docs: seq<Doc>, p: Doc -> bool): Option<Doc> {
    if docs == [] then None
    else if p(docs[|docs| - 1]) then Some(docs[|docs| - 1])
    else LastWhere(docs[..|docs| - 1], p)
  }

  function MasterDocAt(masters: seq<Master>, path: string): Option<Doc> {
    var i := MasterIndex(masters, path);
    if i < |masters| then Some(masters[i].doc) else None
  }

  /** Documents are found by key, the last of each; masters by path, the last of each. */
  lemma {:induction false} DocumentsAreIndexed(docs: seq<Doc>, key: string, path: string)
    ensures var r := Initial(docs);
      && (key in r.docs <==> LastWhere(docs, d => HasKey(d, key)).Some?)
      && (key in r.docs ==> Some(r.docs[key]) == LastWhere(docs, d => HasKey(d, key)))
      && MasterDocAt(r.masters, path) == LastWhere(docs, d => IsMasterAt(d, path))
      && (forall m <- r.masters :: m.doc.ref == Some(m.ref))
  {
    if docs != [] {
      var rest, doc := docs[..|docs| - 1], docs[|docs| - 1];
      DocumentsAreIndexed(rest, key, path);
      InitialIsEmpty(rest);
      if doc.ref.Some? && doc.isMaster {
        SetMasterFinds(Initial(rest).masters, Master(doc, doc.ref.value, None, None, [], []), path);
      }
    }
  }

  lemma SetMasterFinds(masters: seq<Master>, m: Master, path: string)
    requires UniquePaths(masters)
    ensures MasterDocAt(SetMaster(masters, m), path) == if path == m.ref.path then Some(m.doc) else MasterDocAt(masters, path)
    ensures forall n <- SetMaster(masters, m) :: n == m || n in masters
  {
    SetMasterKeeps(masters, m);
    var i, after := MasterIndex(masters, m.ref.path), SetMaster(masters, m);
    var j, k := MasterIndex(masters, path), MasterIndex(after, path);
    if path == m.ref.path {
      assert after[i] == m;
    } else {
      assert j < |masters| ==> after[j] == masters[j];
      assert k < |masters| && k != i ==> after[k] == masters[k];
    }
  }

  function SprintDocs(sprints: seq<Sprint>): seq<Doc> {
    if sprints == [] then [] else SprintDocs(sprints[..|sprints| - 1]) + [sprints[|sprints| - 1].doc]
  }

  /** The sprints are the orchestrating masters among the documents, in their order. */
  lemma {:induction false} SprintsAreOrchestratingDocs(docs: seq<Doc>)
    ensures SprintDocs(Initial(docs).sprints) == Filter(docs, IsSprintDoc)
    ensures forall s <- Initial(docs).sprints :: s.doc.ref == Some(s.ref)
  {
    if docs != [] {
      var rest, doc := docs[..|docs| - 1], docs[|docs| - 1];
      SprintsAreOrchestratingDocs(rest);
      assert docs == rest + [doc];
      FilterPush(rest, doc, IsSprintDoc);
      var before, after := Initial(rest).sprints, Initial(docs).sprints;
      if IsSprintDoc(doc) { assert after[..|after| - 1] == before; }
    }
  }
}
