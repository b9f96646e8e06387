/**
 * The collection of defects (defect_workflow.py, DefectManager): sequential
 * id allocation, lookup, status updates through the workflow, and the
 * filtering queries.
 */
module WorkflowManager {
  import opened Base
  import opened WorkflowTable
  import opened WorkflowDefect

  /** `ds` lists defects in strictly increasing id order, which is creation order. */
  predicate IdsIncreasing(ds: seq<Defect>)
  {
    forall i, j :: 0 <= i < j < |ds| ==> ds[i].id < ds[j].id
  }

  /** In an increasing list, every defect after the first has a larger id than the first. */
  lemma TailIdsAbove(ds: seq<Defect>)
    requires |ds| > 0 && IdsIncreasing(ds)
    ensures IdsIncreasing(ds[1..])
    ensures forall d :: d in ds[1..] ==> ds[0].id < d.id
  {
    forall d | d in ds[1..] ensures ds[0].id < d.id {
      var j :| 0 <= j < |ds[1..]| && ds[1..][j] == d;
      assert ds[j + 1] == d;
    }
  }

  /**
   * Two id-increasing lists with the same members are the same list. So a
   * query whose result is id-increasing and has exactly the matching
   * defects as members is fully determined by that contract.
   */
  lemma {:induction false} IncreasingListsWithSameMembersAreEqual(a: seq<Defect>, b: seq<Defect>)
    requires IdsIncreasing(a) && IdsIncreasing(b)
    requires forall i :: 0 <= i < |a| ==> a[i] in b
    requires forall i :: 0 <= i < |b| ==> b[i] in a
    ensures a == b
    decreases |a|
  {
    EmptyTogether(a, b);
    if |a| > 0 && |b| > 0 {
      SameHeadSameTails(a, b);
      var a', b' := a[1..], b[1..];
      IncreasingListsWithSameMembersAreEqual(a', b');
      SameHeadAndTailSameList(a, b);
    }
  }

  lemma SameHeadAndTailSameList(a: seq<Defect>, b: seq<Defect>)
    requires |a| > 0 && |b| > 0 && a[0] == b[0] && a[1..] == b[1..]
    ensures a == b
  {
    assert a == [a[0]] + a[1..] && b == [b[0]] + b[1..];
  }

  /** Peeling the shared first defect off two such lists leaves two such lists. */
  lemma SameHeadSameTails(a: seq<Defect>, b: seq<Defect>)
    requires IdsIncreasing(a) && IdsIncreasing(b) && |a| > 0 && |b| > 0
    requires forall i :: 0 <= i < |a| ==> a[i] in b
    requires forall i :: 0 <= i < |b| ==> b[i] in a
    ensures a[0] == b[0]
    ensures IdsIncreasing(a[1..]) && IdsIncreasing(b[1..])
    ensures forall i :: 0 <= i < |a| - 1 ==> a[1..][i] in b[1..]
    ensures forall i :: 0 <= i < |b| - 1 ==> b[1..][i] in a[1..]
  {
    assert a[0] in b && b[0] in a;
    SameHead(a, b);
    TailMembers(a, b);
    TailMembers(b, a);
    TailIdsAbove(a);
    TailIdsAbove(b);
  }

  /** Lists with the same members are empty together. */
  lemma EmptyTogether(a: seq<Defect>, b: seq<Defect>)
    requires forall i :: 0 <= i < |a| ==> a[i] in b
    requires forall i :: 0 <= i < |b| ==> b[i] in a
    ensures |a| == 0 <==> |b| == 0
  {
    if |a| > 0 {
      assert a[0] in b;
    }
    if |b| > 0 {
      assert b[0] in a;
    }
  }

  /** Two id-increasing lists with the same members start with the same defect: the one with the least id. */
  lemma SameHead(a: seq<Defect>, b: seq<Defect>)
    requires IdsIncreasing(a) && IdsIncreasing(b) && |a| > 0 && |b| > 0
    requires a[0] in b && b[0] in a
    ensures a[0] == b[0]
  {
    var j :| 0 <= j < |b| && b[j] == a[0];
    var k :| 0 <= k < |a| && a[k] == b[0];
    assert a[0].id <= a[k].id;
    assert b[0].id <= b[j].id;
    assert j == 0;
  }

  /** Past a shared first defect, every later member of `a` is a later member of `b`. */
  lemma TailMembers(a: seq<Defect>, b: seq<Defect>)
    requires IdsIncreasing(a) && IdsIncreasing(b) && |a| > 0 && |b| > 0 && a[0] == b[0]
    requires forall i :: 0 <= i < |a| ==> a[i] in b
    ensures forall i :: 0 <= i < |a| - 1 ==> a[1..][i] in b[1..]
  {
    forall i | 0 <= i < |a| - 1 ensures a[1..][i] in b[1..] {
      assert a[i + 1] in b;
      var m :| 0 <= m < |b| && b[m] == a[i + 1];
      assert a[0].id < a[i + 1].id;
      assert m != 0;
      assert b[1..][m - 1] == a[1..][i];
    }
  }

  /**
   * One step of a filter: `r` is `rest`, preceded by the head of `ds` when it
   * is kept. Members of `r` come from `ds`, and members of `ds` found in
   * `rest` or kept at the head are in `r`.
   */
  lemma ConsMembers(ds: seq<Defect>, rest: seq<Defect>, r: seq<Defect>, keepHead: bool)
    requires |ds| > 0 && r == (if keepHead then [ds[0]] + rest else rest)
    requires forall i :: 0 <= i < |rest| ==> rest[i] in ds[1..]
    ensures forall i :: 0 <= i < |r| ==> r[i] in ds && (r[i] in rest || (keepHead && r[i] == ds[0]))
    ensures keepHead ==> ds[0] in r
    ensures forall d :: d in rest ==> d in r
  {
    forall i | 0 <= i < |r| ensures r[i] in ds && (r[i] in rest || (keepHead && r[i] == ds[0])) {
      if !keepHead || i > 0 {
        var k := if keepHead then i - 1 else i;
        assert r[i] == rest[k] && rest[k] in ds[1..];
      }
    }
  }

  /** One step of a filter keeps the ids increasing. */
  lemma ConsIncreasing(ds: seq<Defect>, rest: seq<Defect>, r: seq<Defect>, keepHead: bool)
    requires |ds| > 0 && r == (if keepHead then [ds[0]] + rest else rest)
    requires forall i :: 0 <= i < |rest| ==> rest[i] in ds[1..]
    requires IdsIncreasing(ds[1..]) ==> IdsIncreasing(rest)
    ensures IdsIncreasing(ds) ==> IdsIncreasing(r)
  {
    if IdsIncreasing(ds) {
      TailIdsAbove(ds);
    }
  }

  /** The defects of `ds` whose current status is `s`, keeping their relative order. */
  function SelectByStatus(ds: seq<Defect>, s: DefectStatus): (r: seq<Defect>)
    reads ds
    ensures forall d :: d in r ==> d in ds && d.status == s
    ensures forall d :: d in ds && d.status == s ==> d in r
    ensures IdsIncreasing(ds) ==> IdsIncreasing(r)
    decreases |ds|
  {
    if ds == [] then []
    else
      var rest := SelectByStatus(ds[1..], s);
      var r := if ds[0].status == s then [ds[0]] + rest else rest;
      ConsMembers(ds, rest, r, ds[0].status == s);
      ConsIncreasing(ds, rest, r, ds[0].status == s);
      r
  }

  /** The defects of `ds` whose priority is `p`, keeping their relative order. */
  function SelectByPriority(ds: seq<Defect>, p: DefectPriority): (r: seq<Defect>)
    ensures forall d :: d in r ==> d in ds && d.priority == p
    ensures forall d :: d in ds && d.priority == p ==> d in r
    ensures IdsIncreasing(ds) ==> IdsIncreasing(r)
    decreases |ds|
  {
    if ds == [] then []
    else
      var rest := SelectByPriority(ds[1..], p);
      var r := if ds[0].priority == p then [ds[0]] + rest else rest;
      ConsMembers(ds, rest, r, ds[0].priority == p);
      ConsIncreasing(ds, rest, r, ds[0].priority == p);
      r
  }

  /**
   * The defects created so far, keyed by id. The id counter belongs to the
   * manager, so the ids in use are exactly 1 up to the counter (exclusive).
   */
  class DefectManager {
    var defects: map<nat, Defect>
    var nextId: nat

    /** Ids are 1 .. nextId - 1 and each defect is stored under its own id. */
    ghost predicate Indexed()
      reads this
    {
      && nextId >= 1
      && (forall k :: k in defects <==> 1 <= k < nextId)
      && |defects| == nextId - 1
      && (forall k :: k in defects ==> defects[k].id == k)
    }

    /** The collection is indexed by id, and every stored defect keeps its ledger invariant. */
    ghost predicate Valid()
      reads this, defects.Values
    {
      Indexed() && forall k :: k in defects ==> defects[k].Valid()
    }

    /** An empty manager whose first id will be 1. */
    constructor ()
      ensures Valid()
      ensures defects == map[] && nextId == 1
    {
      defects := map[];
      nextId := 1;
    }

    /** Creates a defect under the next id, stores it, and advances the counter. */
    method CreateDefect(title: string, description: string, priority: DefectPriority,
                        createdBy: string, now: Timestamp) returns (d: Defect)
      requires Valid()
      modifies this
      ensures Valid()
      ensures fresh(d)
      ensures d.id == old(nextId) && nextId == old(nextId) + 1
      ensures d.id !in old(defects) && defects == old(defects)[d.id := d]
      ensures |defects| == |old(defects)| + 1
      ensures d.title == title && d.description == description && d.priority == priority
      ensures d.createdBy == createdBy && d.createdAt == now
      ensures d.status == New && d.statusHistory == [] && d.assignedTo == None
    {
      d := new Defect(nextId, title, description, priority, createdBy, now);
      defects := defects[nextId := d];
      nextId := nextId + 1;
    }

    /** The defect stored under `id`, or None: exactly the ids handed out so far are found. */
    function GetDefect(id: int): (r: Option<Defect>)
      reads this, defects.Values
      requires Valid()
      ensures r.Some? <==> 1 <= id < nextId
      ensures r.Some? ==> r.value.id == id && r.value in defects.Values
    {
      if id in defects then Some(defects[id]) else None
    }

    /**
     * Moves the defect stored under `id` to `newStatus`. An unknown id yields
     * Ok(false) and changes nothing; otherwise the defect's own change_status
     * decides, and an illegal move comes back as its error.
     */
    method UpdateDefectStatus(id: int, newStatus: DefectStatus, changedBy: string, now: Timestamp,
                              comment: string := "") returns (r: Result<bool, TransitionError>)
      requires Valid()
      modifies if id in defects then {defects[id]} else {}
      ensures Valid()
      ensures id !in defects ==> r == Ok(false)
      ensures id in defects ==>
        var d := defects[id];
        && (IsValidTransition(old(d.status), newStatus) ==>
              && r == Ok(true)
              && d.status == newStatus
              && d.statusHistory == old(d.statusHistory) + [StatusChange(old(d.status), newStatus, changedBy, now, comment)])
        && (!IsValidTransition(old(d.status), newStatus) ==>
              && r == Err(InvalidTransition(old(d.status), newStatus, GetAllowedTransitions(old(d.status))))
              && d.status == old(d.status)
              && d.statusHistory == old(d.statusHistory))
        && d.assignedTo == old(d.assignedTo)
    {
      var found := GetDefect(id);
      if found.None? {
        return Ok(false);
      }
      var d := found.value;
      r := d.ChangeStatus(newStatus, changedBy, now, comment);
    }

    /** The defects with ids 1 .. n, in that order. */
    function DefectsUpTo(n: nat): (r: seq<Defect>)
      reads this, defects.Values
      requires Valid() && n < nextId
      ensures |r| == n
      ensures forall i :: 0 <= i < n ==> r[i] == defects[i + 1]
      decreases n
    {
      if n == 0 then [] else DefectsUpTo(n - 1) + [defects[n]]
    }

    /** Every stored defect once, in creation order: the i-th has id i + 1. */
    function GetAllDefects(): (r: seq<Defect>)
      reads this, defects.Values
      requires Valid()
      ensures |r| == |defects|
      ensures forall i :: 0 <= i < |r| ==> r[i].id == i + 1 && r[i] == defects[i + 1]
      ensures forall k :: k in defects ==> defects[k] in r
      ensures forall d :: d in r ==> d.id in defects && defects[d.id] == d
      ensures IdsIncreasing(r)
    {
      var r := DefectsUpTo(nextId - 1);
      assert forall k :: k in defects ==> r[k - 1] == defects[k];
      r
    }

    /** The stored defects whose status is `s`, in creation order. */
    function GetDefectsByStatus(s: DefectStatus): (r: seq<Defect>)
      reads this, defects.Values
      requires Valid()
      ensures forall d :: d in r ==> d.id in defects && defects[d.id] == d && d.status == s
      ensures forall k :: k in defects && defects[k].status == s ==> defects[k] in r
      ensures IdsIncreasing(r)
    {
      var all := GetAllDefects();
      SelectByStatus(all, s)
    }

    /** The stored defects whose priority is `p`, in creation order. */
    function GetDefectsByPriority(p: DefectPriority): (r: seq<Defect>)
      reads this, defects.Values
      requires Valid()
      ensures forall d :: d in r ==> d.id in defects && defects[d.id] == d && d.priority == p
      ensures forall k :: k in defects && defects[k].priority == p ==> defects[k] in r
      ensures IdsIncreasing(r)
    {
      var all := GetAllDefects();
      SelectByPriority(all, p)
    }
  }
}
