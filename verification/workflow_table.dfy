/**
 * The status and priority vocabularies of the defect workflow engine and its
 * static transition table (defect_workflow.py, DefectStatus, DefectPriority
 * and DefectWorkflow).
 */
module WorkflowTable {
  import opened Base

  /** The six lifecycle states of a defect. */
  datatype DefectStatus = New | InProgress | Testing | Resolved | Closed | Reopened

  /** The informational priority of a defect; it plays no part in transition legality. */
  datatype DefectPriority = Low | Medium | High | Critical

  /** The wire spelling of a status (the Enum member's value). */
  function StatusValue(s: DefectStatus): string
  {
    match s
    case New => "New"
    case InProgress => "In Progress"
    case Testing => "Testing"
    case Resolved => "Resolved"
    case Closed => "Closed"
    case Reopened => "Reopened"
  }

  /** Lookup of a status by its value, as `DefectStatus(v)` does; None where Python raises. */
  function StatusFromValue(v: string): (r: Option<DefectStatus>)
    ensures r.Some? ==> StatusValue(r.value) == v
  {
    if v == "New" then Some(New)
    else if v == "In Progress" then Some(InProgress)
    else if v == "Testing" then Some(Testing)
    else if v == "Resolved" then Some(Resolved)
    else if v == "Closed" then Some(Closed)
    else if v == "Reopened" then Some(Reopened)
    else None
  }

  /** Every status is recovered from its own spelling, so the spellings are pairwise distinct. */
  lemma StatusValueRoundTrip(s: DefectStatus)
    ensures StatusFromValue(StatusValue(s)) == Some(s)
  {
  }

  /** The wire spelling of a priority. */
  function PriorityValue(p: DefectPriority): string
  {
    match p
    case Low => "Low"
    case Medium => "Medium"
    case High => "High"
    case Critical => "Critical"
  }

  /** Lookup of a priority by its value, as `DefectPriority(v)` does; None where Python raises. */
  function PriorityFromValue(v: string): (r: Option<DefectPriority>)
    ensures r.Some? ==> PriorityValue(r.value) == v
  {
    if v == "Low" then Some(Low)
    else if v == "Medium" then Some(Medium)
    else if v == "High" then Some(High)
    else if v == "Critical" then Some(Critical)
    else None
  }

  lemma PriorityValueRoundTrip(p: DefectPriority)
    ensures PriorityFromValue(PriorityValue(p)) == Some(p)
  {
  }

  /** The table of legal one-step moves, each row in its declared order. */
  const ValidTransitions: map<DefectStatus, seq<DefectStatus>> := map[
    New := [InProgress, Closed],
    InProgress := [Testing, New, Closed],
    Testing := [Resolved, InProgress, Reopened],
    Resolved := [Closed, Reopened],
    Closed := [Reopened],
    Reopened := [InProgress, Closed]
  ]

  /** The declared row for `status`, or the empty list for a status the table does not list. */
  function GetAllowedTransitions(status: DefectStatus): (r: seq<DefectStatus>)
    ensures status !in ValidTransitions ==> r == []
    ensures status in ValidTransitions ==> r == ValidTransitions[status]
  {
    if status in ValidTransitions then ValidTransitions[status] else []
  }

  /** A move is legal exactly when its target is listed in the row of its source. */
  function IsValidTransition(fromStatus: DefectStatus, toStatus: DefectStatus): (r: bool)
    ensures r <==> toStatus in GetAllowedTransitions(fromStatus)
    ensures fromStatus !in ValidTransitions ==> !r
  {
    if fromStatus !in ValidTransitions then false
    else toStatus in ValidTransitions[fromStatus]
  }

  /** The legal moves are exactly the thirteen pairs of the workflow table; the other 23 of the 36 pairs are illegal. */
  lemma ValidTransitionsExactly(f: DefectStatus, t: DefectStatus)
    ensures IsValidTransition(f, t) <==> (f, t) in {
      (New, InProgress), (New, Closed),
      (InProgress, Testing), (InProgress, New), (InProgress, Closed),
      (Testing, Resolved), (Testing, InProgress), (Testing, Reopened),
      (Resolved, Closed), (Resolved, Reopened),
      (Closed, Reopened),
      (Reopened, InProgress), (Reopened, Closed)}
  {
  }

  /** The table has a row for every status, and no row is empty: no status is terminal. */
  lemma EveryStatusHasSuccessor(s: DefectStatus)
    ensures s in ValidTransitions
    ensures |GetAllowedTransitions(s)| > 0
  {
  }

  /** No status may move to itself. */
  lemma NoSelfTransition(s: DefectStatus)
    ensures !IsValidTransition(s, s)
  {
  }

  /** The relation is not symmetric: a defect can be closed straight from New but never sent back to New from Closed. */
  lemma TransitionsNotSymmetric()
    ensures IsValidTransition(New, Closed)
    ensures !IsValidTransition(Closed, New)
  {
  }

  /** Each row lists every target once, so a row read as a set has as many members as the list. */
  lemma RowsHaveNoDuplicates(s: DefectStatus)
    ensures forall i, j :: 0 <= i < j < |GetAllowedTransitions(s)| ==>
      GetAllowedTransitions(s)[i] != GetAllowedTransitions(s)[j]
  {
  }

  /** A walk through the workflow: every consecutive pair is a legal move. */
  predicate IsWalk(p: seq<DefectStatus>)
  {
    forall i :: 0 < i < |p| ==> IsValidTransition(p[i - 1], p[i])
  }

  /** A shortest walk from New to `t`; it witnesses that every status can be reached. */
  function WalkFromNew(t: DefectStatus): (p: seq<DefectStatus>)
    ensures |p| > 0 && p[0] == New && p[|p| - 1] == t
    ensures IsWalk(p)
  {
    match t
    case New => [New]
    case InProgress => [New, InProgress]
    case Testing => [New, InProgress, Testing]
    case Resolved => [New, InProgress, Testing, Resolved]
    case Closed => [New, Closed]
    case Reopened => [New, Closed, Reopened]
  }

  /** The graph is not acyclic: InProgress and Testing reach each other, so a defect may cycle indefinitely. */
  lemma WorkflowHasCycle()
    ensures IsWalk([InProgress, Testing, InProgress])
    ensures IsWalk([Closed, Reopened, Closed])
  {
  }
}
