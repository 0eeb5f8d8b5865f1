/**
  The copy-then-swap of sync-runtime.py, with a crash allowed between any two file operations and in
  the middle of every copy and recursive delete. Renames are atomic; parents always exist.
 */
module SyncRuntime {
  import opened Wrappers
  import opened RuntimeTree

  /** What `replace_tree` is about to do, for a source as it stood when the run began. */
  datatype Stage =
    | Idle
    | ClearStaging(source: Tree)
    | ClearRetired(source: Tree)
    | Copy(source: Tree)
    | Retire(source: Tree)
    | Install(source: Tree)
    | DropRetired(source: Tree)

  datatype Disk = Disk(target: Option<Tree>, staging: Option<Tree>, retired: Option<Tree>, stage: Stage)

  /** `Partly` is unfinished work of a copy or a delete: any tree may be there in the meantime. */
  datatype Event = Begin(source: Tree) | Partly(junk: Tree) | Finish | Crash

  function Finished(d: Disk): Disk {
    match d.stage
    case Idle => d
    case ClearStaging(source) => d.(staging := None, stage := ClearRetired(source))
    case ClearRetired(source) => d.(retired := None, stage := Copy(source))
    case Copy(source) => d.(staging := Some(Filter(source)), stage := Retire(source))
    case Retire(source) =>
      if d.target.Some? then d.(retired := d.target, target := None, stage := Install(source))
      else d.(stage := Install(source))
    case Install(source) => d.(target := d.staging, staging := None, stage := DropRetired(source))
    case DropRetired(source) => d.(retired := None, stage := Idle)
  }

  function Disturbed(d: Disk, junk: Tree): Disk {
    match d.stage
    case ClearStaging(_) => if d.staging.Some? then d.(staging := Some(junk)) else d
    case ClearRetired(_) => if d.retired.Some? then d.(retired := Some(junk)) else d
    case Copy(_) => d.(staging := Some(junk))
    case DropRetired(_) => if d.retired.Some? then d.(retired := Some(junk)) else d
    case _ => d
  }

  function Step(d: Disk, e: Event): Disk {
    match e
    case Begin(source) => if d.stage.Idle? then d.(stage := ClearStaging(source)) else d
    case Partly(junk) => Disturbed(d, junk)
    case Finish => Finished(d)
    case Crash => d.(stage := Idle)
  }

  function After(d: Disk, events: seq<Event>): Disk {
    if events == [] then d else Step(After(d, events[..|events| - 1]), events[|events| - 1])
  }

  /**
    Unfinished work can leave any tree behind, but only where the operation at hand works: the staging
    directory while it is cleared or copied into, the retired one while it is deleted.
   */
  lemma UnfinishedWorkLeavesAnything(d: Disk, junk: Tree)
    ensures var t := Step(d, Partly(junk));
      && t.target == d.target && t.stage == d.stage
      && t.staging == (if d.stage.Copy? || (d.stage.ClearStaging? && d.staging.Some?) then Some(junk) else d.staging)
      && t.retired == (if (d.stage.ClearRetired? || d.stage.DropRetired?) && d.retired.Some? then Some(junk) else d.retired)
  {
  }

  /** A run begins only when none is under way, and a crash ends it where it stands. */
  lemma RunsBeginAndCrash(d: Disk, source: Tree)
    ensures Step(d, Begin(source)) == if d.stage.Idle? then d.(stage := ClearStaging(source)) else d
    ensures var t := Step(d, Crash);
      t.stage.Idle? && t.target == d.target && t.staging == d.staging && t.retired == d.retired
  {
  }

  // ---------------------------------------------------------------- what the target can be

  /** The last rename of a run: none yet, the target moved aside, or a source installed. */
  datatype Rename = Untouched | Aside | Installed(source: Tree)

  function LastRename(d: Disk, events: seq<Event>): Rename {
    if events == [] then Untouched else
    var rest := events[..|events| - 1];
    var before := After(d, rest);
    if events[|events| - 1].Finish? && before.stage.Retire? && before.target.Some? then Aside
    else if events[|events| - 1].Finish? && before.stage.Install? then Installed(before.stage.source)
    else LastRename(d, rest)
  }

  /** What is known at each stage, whatever happened before the run that reached it. */
  predicate StageInv(d: Disk) {
    match d.stage
    case Idle => true
    case ClearStaging(_) => true
    case ClearRetired(_) => d.staging.None?
    case Copy(_) => d.retired.None?
    case Retire(source) => d.staging == Some(Filter(source)) && d.retired.None?
    case Install(source) => d.staging == Some(Filter(source)) && d.target.None?
    case DropRetired(source) => d.target == Some(Filter(source)) && d.staging.None?
  }

  lemma StepKeepsStage(d: Disk, e: Event)
    requires StageInv(d)
    ensures StageInv(Step(d, e))
  {
  }

  lemma {:induction false} RunKeepsStage(d: Disk, events: seq<Event>)
    requires StageInv(d)
    ensures StageInv(After(d, events))
  {
    if events != [] {
      RunKeepsStage(d, events[..|events| - 1]);
      StepKeepsStage(After(d, events[..|events| - 1]), events[|events| - 1]);
    }
  }

  /**
    In every state of every run, crashes and all, the target is what the last rename says: the tree it
    started as, absent, or the complete filtered copy of a source. It is never partial.
   */
  lemma {:induction false} TargetIsWhole(d: Disk, events: seq<Event>)
    requires d.stage.Idle?
    ensures After(d, events).target ==
      match LastRename(d, events)
      case Untouched => d.target
      case Aside => None
      case Installed(source) => Some(Filter(source))
  {
    if events != [] {
      var rest := events[..|events| - 1];
      TargetIsWhole(d, rest);
      RunKeepsStage(d, rest);
    }
  }

  /** A target that was there is missing exactly while the last rename was the one that moved it aside. */
  lemma MissingExactlyBetweenRenames(d: Disk, events: seq<Event>)
    requires d.stage.Idle? && d.target.Some?
    ensures After(d, events).target.None? <==> LastRename(d, events).Aside?
  {
    TargetIsWhole(d, events);
  }

  // ---------------------------------------------------------------- recovery

  predicate Uninterrupted(events: seq<Event>) {
    forall e <- events :: e.Partly? || e.Finish?
  }

  function Steps(stage: Stage): nat {
    match stage
    case Idle => 0
    case ClearStaging(_) => 6
    case ClearRetired(_) => 5
    case Copy(_) => 4
    case Retire(_) => 3
    case Install(_) => 2
    case DropRetired(_) => 1
  }

  function Finishes(events: seq<Event>): nat {
    if events == [] then 0 else Finishes(events[..|events| - 1]) + if events[|events| - 1].Finish? then 1 else 0
  }

  /** Where an uninterrupted run stands is told by the operations it has finished. */
  predicate Underway(d: Disk, source: Tree, done: nat) {
    && Steps(d.stage) == (if done <= 6 then 6 - done else 0)
    && (!d.stage.Idle? ==> d.stage.source == source)
    && StageInv(d)
    && (done >= 6 ==> d.target == Some(Filter(source)) && d.staging.None? && d.retired.None?)
  }

  lemma UnderwayStep(d: Disk, e: Event, source: Tree, done: nat)
    requires Underway(d, source, done) && (e.Partly? || e.Finish?)
    ensures Underway(Step(d, e), source, if e.Finish? then done + 1 else done)
  {
  }

  lemma {:induction false} UninterruptedRun(d: Disk, source: Tree, events: seq<Event>)
    requires d.stage == ClearStaging(source) && Uninterrupted(events)
    ensures Underway(After(d, events), source, Finishes(events))
  {
    if events != [] {
      var rest, e := events[..|events| - 1], events[|events| - 1];
      assert forall x <- rest :: x in events;
      UninterruptedRun(d, source, rest);
      assert e in events;
      UnderwayStep(After(d, rest), e, source, Finishes(rest));
    }
  }

  lemma {:induction false} AfterConcat(d: Disk, a: seq<Event>, b: seq<Event>)
    ensures After(d, a + b) == After(After(d, a), b)
  {
    if b == [] {
      assert a + b == a;
    } else {
      AfterConcat(d, a, b[..|b| - 1]);
      assert (a + b)[..|a + b| - 1] == a + b[..|b| - 1] && (a + b)[|a + b| - 1] == b[|b| - 1];
    }
  }

  /**
    After any number of crashes at any points, one run left to finish installs the filtered source,
    leaves nothing else behind and passes the check.
   */
  lemma OneRunRecovers(
    d: Disk, crashed: seq<Event>, source: Tree, run: seq<Event>, digest: string -> string)
    requires After(d, crashed).stage.Idle?
    requires Uninterrupted(run) && Finishes(run) >= 6
    ensures var end := After(d, crashed + [Begin(source)] + run);
      && end.target == Some(Filter(source)) && end.staging.None? && end.retired.None? && end.stage.Idle?
      && InSync(DiffOf(FileDigests(Some(source), digest), FileDigests(end.target, digest)))
      && forall path :: Ignored(path) ==> path !in FilePaths(end.target.value)
  {
    AfterConcat(d, crashed + [Begin(source)], run);
    AfterConcat(d, crashed, [Begin(source)]);
    BeginStep(After(d, crashed), source);
    UninterruptedRun(After(d, crashed + [Begin(source)]), source, run);
    CopyIsInSync(source, digest);
    forall path | Ignored(path) ensures path !in FilePaths(Filter(source)) { CopyHoldsNothingIgnored(source, path); }
  }

  lemma BeginStep(d: Disk, source: Tree)
    requires d.stage.Idle?
    ensures After(d, [Begin(source)]) == d.(stage := ClearStaging(source))
  {
    assert [Begin(source)][..0] == [];
  }

  /**
    The docstring's "no crash window leaves a missing target" is not so: a crash between the two
    renames leaves none, and the next run then deletes both the old tree and its finished replacement
    before it copies anything.
   */
  lemma CrashBetweenRenamesLosesBothCopies(previous: Tree, source: Tree)
    ensures var d := Disk(Some(previous), None, None, Idle);
      var crashed := After(d, [Begin(source), Finish, Finish, Finish, Finish, Crash]);
      && crashed == Disk(None, Some(Filter(source)), Some(previous), Idle)
      && Step(Step(Step(crashed, Begin(source)), Finish), Finish) == Disk(None, None, None, Copy(source))
  {
    var d := Disk(Some(previous), None, None, Idle);
    var e := [Begin(source), Finish, Finish, Finish, Finish, Crash];
    assert e[..5][..4] == e[..4] && e[..4][..3] == e[..3] && e[..3][..2] == e[..2] && e[..2][..1] == e[..1];
    assert e[..1] == [Begin(source)];
    BeginStep(d, source);
    assert After(d, e[..2]) == Finished(After(d, e[..1]));
    assert After(d, e[..3]) == Finished(After(d, e[..2]));
    assert After(d, e[..4]) == Finished(After(d, e[..3]));
    assert After(d, e[..5]) == Finished(After(d, e[..4]));
  }

  // ---------------------------------------------------------------- the script's own operations

  /** The three directories; `ReplaceTree` is a run of it without a crash. */
  class PackageData {
    var target: Option<Tree>
    var staging: Option<Tree>
    var retired: Option<Tree>

    function View(stage: Stage): Disk
      reads this
    {
      Disk(target, staging, retired, stage)
    }

    /** `replace_tree`. */
    method ReplaceTree(source: Tree)
      modifies this
      ensures target == Some(Filter(source)) && staging.None? && retired.None?
      ensures View(Idle) == After(old(View(ClearStaging(source))), [Finish, Finish, Finish, Finish, Finish, Finish])
    {
      ghost var start := View(ClearStaging(source));
      if staging.Some? { staging := None; }
      assert View(ClearRetired(source)) == Finished(start);
      if retired.Some? { retired := None; }
      staging := Some(Filter(source));
      ghost var copied := View(Retire(source));
      assert copied == Finished(Finished(Finished(start)));
      if target.Some? { retired, target := target, None; }
      target, staging := staging, None;
      assert View(DropRetired(source)) == Finished(Finished(copied));
      if retired.Some? { retired := None; }
      SixFinishes(start);
    }
  }

  lemma SixFinishes(d: Disk)
    ensures After(d, [Finish, Finish, Finish, Finish, Finish, Finish]) ==
      Finished(Finished(Finished(Finished(Finished(Finished(d))))))
  {
    var e := [Finish, Finish, Finish, Finish, Finish, Finish];
    assert e[..5][..4] == e[..4] && e[..4][..3] == e[..3] && e[..3][..2] == e[..2] && e[..2][..1] == e[..1];
    assert e[..1] == [Finish] && e[..1][..0] == [];
    assert After(d, e[..1]) == Finished(d);
    assert After(d, e[..2]) == Finished(Finished(d));
    assert After(d, e[..3]) == Finished(Finished(Finished(d)));
    assert After(d, e[..4]) == Finished(After(d, e[..3]));
    assert After(d, e[..5]) == Finished(After(d, e[..4]));
  }

  /** `file_digests`: one pass over a recursive listing, whose order does not matter. */
  method CollectDigests(root: Tree, listing: seq<Path>, digest: string -> string) returns (files: Digests)
    requires forall path :: path in FilePaths(root) ==> path in listing
    ensures files == FileDigests(Some(root), digest)
  {
    files := map[];
    for i := 0 to |listing|
      invariant forall path :: path in files <==>
        path in listing[..i] && !Ignored(path) && Lookup(root, path).Some?
      invariant forall path <- files :: Lookup(root, path).Some? && files[path] == digest(Lookup(root, path).value)
    {
      var path := listing[i];
      var found := Lookup(root, path);
      if !Ignored(path) && found.Some? { files := files[path := digest(found.value)]; }
      assert listing[..i + 1] == listing[..i] + [path];
    }
    assert listing[..|listing|] == listing;
    forall path ensures path in FilePaths(root) <==> Lookup(root, path).Some? { FilePathsAreFiles(root, path); }
  }
}
