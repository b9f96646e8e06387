/**
 * Concrete runs of the workflow engine, in the shape of the repository's unit
 * tests (test_defect_workflow.py): what the model guarantees about each.
 * Titles, actors and the clock are left symbolic, since no outcome depends on them.
 */
module WorkflowScenarios {
  import opened Base
  import opened WorkflowTable
  import opened WorkflowDefect
  import opened WorkflowManager

  /**
   * New -> In Progress -> Testing -> Resolved: every step succeeds, the defect
   * ends Resolved, and its history holds the three targets in call order.
   */
  method WorkThroughToResolved(title: string, actor: string, now: Timestamp)
    returns (final: DefectStatus, targets: seq<DefectStatus>)
    ensures final == Resolved
    ensures targets == [InProgress, Testing, Resolved]
  {
    var d := new Defect(1, title, title, Critical, actor, now);
    var r := d.ChangeStatus(InProgress, actor, now, "Starting");
    r := d.ChangeStatus(Testing, actor, now, "Ready for testing");
    r := d.ChangeStatus(Resolved, actor, now, "Tests passed");
    var h := d.GetStatusHistory();
    final := d.status;
    targets := [h[0].toStatus, h[1].toStatus, h[2].toStatus];
  }

  /** A fresh defect walked New -> In Progress -> Testing -> Resolved, every step accepted. */
  method ResolvedDefect(title: string, actor: string, now: Timestamp) returns (d: Defect, firstFrom: DefectStatus)
    ensures fresh(d) && d.Valid()
    ensures d.status == Resolved && |d.statusHistory| == 3 && firstFrom == New
  {
    d := new Defect(1, title, title, High, actor, now);
    var r := d.ChangeStatus(InProgress, actor, now);
    firstFrom := d.statusHistory[0].fromStatus;
    r := d.ChangeStatus(Testing, actor, now);
    r := d.ChangeStatus(Resolved, actor, now);
  }

  /**
   * New -> In Progress -> Testing -> Resolved -> Closed -> Reopened: the
   * defect ends Reopened with five records, the first leaving New.
   */
  method CloseAndReopen(title: string, actor: string, now: Timestamp)
    returns (final: DefectStatus, count: nat, firstFrom: DefectStatus)
    ensures final == Reopened && count == 5 && firstFrom == New
  {
    var d;
    d, firstFrom := ResolvedDefect(title, actor, now);
    var r := d.ChangeStatus(Closed, actor, now);
    r := d.ChangeStatus(Reopened, actor, now);
    final := d.status;
    count := |d.statusHistory|;
  }

  /**
   * New -> Resolved is refused with the allowed targets In Progress and
   * Closed, and the defect stays New with an empty history.
   */
  method RejectedMove(title: string, actor: string, now: Timestamp)
    returns (r: Result<bool, TransitionError>, status: DefectStatus, history: seq<StatusChange>)
    ensures r == Err(InvalidTransition(New, Resolved, [InProgress, Closed]))
    ensures status == New && history == []
  {
    var m := new DefectManager();
    var d := m.CreateDefect(title, title, Low, actor, now);
    r := m.UpdateDefectStatus(d.id, Resolved, actor, now);
    status := d.status;
    history := d.GetStatusHistory();
  }

  /**
   * Three defects get ids 1, 2 and 3; an id never handed out is not found, and
   * updating it reports false.
   */
  method SequentialIds(title: string, actor: string, now: Timestamp)
    returns (ids: seq<nat>, missing: Option<Defect>, unknownUpdate: Result<bool, TransitionError>)
    ensures ids == [1, 2, 3]
    ensures missing == None
    ensures unknownUpdate == Ok(false)
  {
    var m := new DefectManager();
    var d1 := m.CreateDefect(title, title, High, actor, now);
    var d2 := m.CreateDefect(title, title, Medium, actor, now);
    var d3 := m.CreateDefect(title, title, Low, actor, now);
    ids := [d1.id, d2.id, d3.id];
    missing := m.GetDefect(999);
    unknownUpdate := m.UpdateDefectStatus(999, InProgress, actor, now);
  }

  /** A fresh manager holding three new defects under ids 1, 2 and 3. */
  method ThreeStored(title: string, actor: string, now: Timestamp)
    returns (m: DefectManager, d1: Defect, d2: Defect, d3: Defect)
    ensures fresh(m) && fresh(d1) && fresh(d2) && fresh(d3)
    ensures m.Indexed() && d1.Valid() && d2.Valid() && d3.Valid()
    ensures m.defects == map[1 := d1, 2 := d2, 3 := d3] && d1.id == 1 && d2.id == 2 && d3.id == 3
    ensures d1.status == New && d2.status == New && d3.status == New
  {
    m := new DefectManager();
    d1 := m.CreateDefect(title, title, High, actor, now);
    d2 := m.CreateDefect(title, title, Medium, actor, now);
    d3 := m.CreateDefect(title, title, Low, actor, now);
    assert m.defects == map[1 := d1, 2 := d2, 3 := d3];
  }

  /**
   * The same manager with the first two defects moved to In Progress through
   * the defects themselves rather than through the manager.
   */
  method ThreeStoredTwoStarted(title: string, actor: string, now: Timestamp)
    returns (m: DefectManager, d1: Defect, d2: Defect, d3: Defect)
    ensures fresh(m) && m.Indexed() && d1.Valid() && d2.Valid() && d3.Valid()
    ensures m.defects == map[1 := d1, 2 := d2, 3 := d3] && d1.id == 1 && d2.id == 2 && d3.id == 3
    ensures d1.status == InProgress && d2.status == InProgress && d3.status == New
  {
    m, d1, d2, d3 := ThreeStored(title, actor, now);
    var r := d1.ChangeStatus(InProgress, actor, now);
    r := d2.ChangeStatus(InProgress, actor, now);
  }

  /** A manager indexing three valid defects is valid. */
  lemma ThreeStoredValid(m: DefectManager, d1: Defect, d2: Defect, d3: Defect)
    requires m.Indexed() && m.defects == map[1 := d1, 2 := d2, 3 := d3]
    requires d1.Valid() && d2.Valid() && d3.Valid()
    ensures m.Valid()
  {
    forall k | k in m.defects ensures m.defects[k].Valid() {
      assert k == 1 || k == 2 || k == 3;
    }
  }

  /**
   * After those direct changes, filtering by New finds only the third defect,
   * and filtering by In Progress finds the first two, in creation order.
   */
  method FilterAfterDirectChanges(title: string, actor: string, now: Timestamp)
    returns (d1: Defect, d2: Defect, d3: Defect, newOnes: seq<Defect>, inProgress: seq<Defect>)
    ensures newOnes == [d3]
    ensures inProgress == [d1, d2]
  {
    var m;
    m, d1, d2, d3 := ThreeStoredTwoStarted(title, actor, now);
    ThreeStoredValid(m, d1, d2, d3);
    newOnes := m.GetDefectsByStatus(New);
    inProgress := m.GetDefectsByStatus(InProgress);
    ExactFilter(newOnes, m.defects, d1, d2, d3, New);
    ExactFilter(inProgress, m.defects, d1, d2, d3, InProgress);
    SelectTwoStarted(d1, d2, d3);
  }

  /** Selecting from the three defects by status, evaluated. */
  lemma SelectTwoStarted(d1: Defect, d2: Defect, d3: Defect)
    requires d1.status == InProgress && d2.status == InProgress && d3.status == New
    ensures SelectByStatus([d1, d2, d3], New) == [d3]
    ensures SelectByStatus([d1, d2, d3], InProgress) == [d1, d2]
  {
    assert [d1, d2, d3][1..] == [d2, d3] && [d2, d3][1..] == [d3] && [d3][1..] == [];
    assert SelectByStatus([d3], New) == [d3];
    assert SelectByStatus([d3], InProgress) == [];
    assert SelectByStatus([d2, d3], New) == [d3];
    assert SelectByStatus([d2, d3], InProgress) == [d2] + SelectByStatus([d3], InProgress);
  }

  /**
   * A filter result over three stored defects is pinned down by its
   * contract: it is the selection of those three, in id order.
   */
  lemma ExactFilter(r: seq<Defect>, defects: map<nat, Defect>, d1: Defect, d2: Defect, d3: Defect, s: DefectStatus)
    requires defects == map[1 := d1, 2 := d2, 3 := d3] && d1.id == 1 && d2.id == 2 && d3.id == 3
    requires forall d :: d in r ==> d.id in defects && defects[d.id] == d && d.status == s
    requires forall k :: k in defects && defects[k].status == s ==> defects[k] in r
    requires IdsIncreasing(r)
    ensures r == SelectByStatus([d1, d2, d3], s)
  {
    var all := [d1, d2, d3];
    var expected := SelectByStatus(all, s);
    assert defects[1] == d1 && defects[2] == d2 && defects[3] == d3;
    forall i | 0 <= i < |r| ensures r[i] in expected {
      assert r[i] in r;
    }
    forall i | 0 <= i < |expected| ensures expected[i] in r {
      assert expected[i] in all;
    }
    IncreasingListsWithSameMembersAreEqual(r, expected);
  }
}
