/** The session row as the rail reads it (dashboard/src/data/sessions.ts). */
module Sessions {
  import opened Wrappers

  datatype Ref = Ref(repository: string, path: string)

  datatype Status = Running | Landed | Terminated | OtherStatus

  datatype Session = Session(
    id: string,
    role: string,
    status: Status,
    retirementProvenance: bool,
    taskRef: Option<Ref>,
    structuralParentRole: Option<string>,
    structuralParentRef: Option<Ref>,
    spawnedBy: Option<string>)

  predicate IsPlannedRetirement(s: Session) {
    s.status.Terminated? && s.retirementProvenance
  }

  /** The rows that own a window, in order. */
  function Visible(sessions: seq<Session>): seq<Session> {
    if sessions == [] then []
    else (if IsPlannedRetirement(sessions[0]) then [] else [sessions[0]]) + Visible(sessions[1..])
  }

  lemma {:induction false} VisibleMembers(sessions: seq<Session>)
    ensures forall s :: s in Visible(sessions) <==> s in sessions && !IsPlannedRetirement(s)
  {
    if sessions != [] {
      VisibleMembers(sessions[1..]);
      assert forall s :: s in sessions <==> s == sessions[0] || s in sessions[1..];
    }
  }

  /** A row owns a window unless it ended with retirement provenance; a bare termination stays as evidence. */
  lemma VisibleExactlyUnlessRetired(sessions: seq<Session>, s: Session)
    ensures s in Visible(sessions) <==> s in sessions && !(s.status.Terminated? && s.retirementProvenance)
  {
    VisibleMembers(sessions);
  }

  predicate UniqueSessionIds(sessions: seq<Session>) {
    forall i, j :: 0 <= i < j < |sessions| ==> sessions[i].id != sessions[j].id
  }

  lemma {:induction false} VisibleUnique(sessions: seq<Session>)
    requires UniqueSessionIds(sessions)
    ensures UniqueSessionIds(Visible(sessions))
  {
    if sessions != [] {
      var rest := Visible(sessions[1..]);
      VisibleUnique(sessions[1..]);
      VisibleMembers(sessions[1..]);
      assert forall k :: 0 <= k < |rest| ==> rest[k] in rest && rest[k] in sessions[1..];
    }
  }
}
