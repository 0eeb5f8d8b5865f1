/** How one lifecycle poll splits its targets into status requests: by bridge epoch, then by page. */
module StatusPages {
  import opened Wrappers
  import opened Flattening
  import opened SubmissionLifecycle

  const PageSize: nat := 64

  datatype Group = Group(epoch: string, entries: seq<PollTarget>)

  function Entries(g: Group): seq<PollTarget> { g.entries }

  function GroupIndex(groups: seq<Group>, epoch: string): (i: nat)
    ensures i <= |groups| && (i < |groups| ==> groups[i].epoch == epoch)
    ensures forall j :: 0 <= j < i ==> groups[j].epoch != epoch
  {
    IndexWhere(groups, (g: Group) => g.epoch == epoch)
  }

  predicate OfOneEpoch(g: Group) {
    g.entries != [] && forall t <- g.entries :: t.expectedBridgeEpoch == g.epoch
  }

  /** A map by epoch, kept as its entries in insertion order. */
  predicate ByEpoch(groups: seq<Group>) {
    && (forall i :: 0 <= i < |groups| ==> OfOneEpoch(groups[i]))
    && (forall i, j :: 0 <= i < j < |groups| ==> groups[i].epoch != groups[j].epoch)
  }

  function Added(groups: seq<Group>, t: PollTarget): seq<Group> {
    var i := GroupIndex(groups, t.expectedBridgeEpoch);
    if i == |groups| then groups + [Group(t.expectedBridgeEpoch, [t])]
    else groups[i := groups[i].(entries := groups[i].entries + [t])]
  }

  lemma AddedHolds(groups: seq<Group>, t: PollTarget)
    ensures multiset(Flat(Added(groups, t), Entries)) == multiset(Flat(groups, Entries)) + multiset{t}
  {
    var i := GroupIndex(groups, t.expectedBridgeEpoch);
    if i == |groups| {
      FlatPush(groups, Group(t.expectedBridgeEpoch, [t]), Entries);
    } else {
      FlatGrow(groups, i, groups[i].(entries := groups[i].entries + [t]), Entries, multiset{t});
    }
  }

  lemma AddedStaysByEpoch(groups: seq<Group>, t: PollTarget)
    requires ByEpoch(groups)
    ensures ByEpoch(Added(groups, t))
  {
    var i := GroupIndex(groups, t.expectedBridgeEpoch);
    assert OfOneEpoch(Group(t.expectedBridgeEpoch, [t]));
    if i < |groups| { assert OfOneEpoch(groups[i].(entries := groups[i].entries + [t])); }
  }

  lemma OneMoreTarget(targets: seq<PollTarget>, k: nat)
    requires k < |targets|
    ensures multiset(targets[..k + 1]) == multiset(targets[..k]) + multiset{targets[k]}
  {
    assert targets[..k + 1] == targets[..k] + [targets[k]];
  }

  /** `groupTargetsByEpoch`. */
  method GroupByEpoch(targets: seq<PollTarget>) returns (groups: seq<Group>)
    ensures multiset(Flat(groups, Entries)) == multiset(targets) && ByEpoch(groups)
  {
    groups := [];
    for k := 0 to |targets|
      invariant multiset(Flat(groups, Entries)) == multiset(targets[..k])
      invariant ByEpoch(groups)
    {
      AddedHolds(groups, targets[k]);
      AddedStaysByEpoch(groups, targets[k]);
      OneMoreTarget(targets, k);
      groups := Added(groups, targets[k]);
    }
    assert targets[..|targets|] == targets;
  }

  predicate IsPage(page: Group) {
    && 0 < |page.entries| <= PageSize
    && forall t <- page.entries :: t.expectedBridgeEpoch == page.epoch
  }

  /** The inner loop: consecutive slices of one group. */
  method PagesOf(group: Group) returns (pages: seq<Group>)
    requires OfOneEpoch(group)
    ensures Flat(pages, Entries) == group.entries
    ensures forall p <- pages :: IsPage(p) && p.epoch == group.epoch
  {
    pages := [];
    var start := 0;
    while start < |group.entries|
      invariant 0 <= start <= |group.entries|
      invariant Flat(pages, Entries) == group.entries[..start]
      invariant forall p <- pages :: IsPage(p) && p.epoch == group.epoch
    {
      var end := if start + PageSize < |group.entries| then start + PageSize else |group.entries|;
      var page := Group(group.epoch, group.entries[start..end]);
      FlatPush(pages, page, Entries);
      assert group.entries[..start] + group.entries[start..end] == group.entries[..end];
      pages := pages + [page];
      start := end;
    }
    assert group.entries[..|group.entries|] == group.entries;
  }

  lemma PagesExtend(pages: seq<Group>, more: seq<Group>, groups: seq<Group>, i: nat)
    requires i < |groups| && Flat(more, Entries) == groups[i].entries
    requires multiset(Flat(pages, Entries)) == multiset(Flat(groups[..i], Entries))
    ensures multiset(Flat(pages + more, Entries)) == multiset(Flat(groups[..i + 1], Entries))
  {
    FlatAppendCounts(pages, more, Entries);
    FlatNext(groups, i, Entries);
  }

  /**
    The requests of `pollSubmissionLifecycleOnce`: every target is asked about exactly once, on a page
    of at most 64 that all belong to the one epoch the request names.
   */
  method StatusRequests(targets: seq<PollTarget>) returns (pages: seq<Group>)
    ensures multiset(Flat(pages, Entries)) == multiset(targets)
    ensures forall p <- pages :: IsPage(p)
  {
    var groups := GroupByEpoch(targets);
    pages := [];
    for i := 0 to |groups|
      invariant multiset(Flat(pages, Entries)) == multiset(Flat(groups[..i], Entries))
      invariant forall p <- pages :: IsPage(p)
    {
      var more := PagesOf(groups[i]);
      PagesExtend(pages, more, groups, i);
      pages := pages + more;
    }
    assert groups[..|groups|] == groups;
  }
}
