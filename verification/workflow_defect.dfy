/**
 * One defect and its audit ledger (defect_workflow.py, StatusChange and Defect).
 *
 * A defect's current status and its append-only history are kept in step:
 * the history is a chain of legal moves that starts at New, and the status is
 * where that chain ends.
 */
module WorkflowDefect {
  import opened Base
  import opened WorkflowTable

  /** A clock reading. The source reads the system clock; here the caller supplies it. */
  type Timestamp = int

  /** One audit record: an executed move, who made it, when, and a free-text comment (possibly empty). */
  datatype StatusChange = StatusChange(
    fromStatus: DefectStatus,
    toStatus: DefectStatus,
    changedBy: string,
    timestamp: Timestamp,
    comment: string)

  /**
   * The error change_status raises for an illegal move: the attempted pair and
   * the targets that were allowed from the current status.
   */
  datatype TransitionError = InvalidTransition(fromStatus: DefectStatus, toStatus: DefectStatus, allowed: seq<DefectStatus>)

  /** The arguments of one change_status call, with the time at which it is made. */
  datatype ChangeRequest = ChangeRequest(newStatus: DefectStatus, changedBy: string, comment: string, at: Timestamp)

  // ---------------------------------------------------------------------------
  // The ledger

  /** `h` is a chain of legal moves leaving from `start`: each record leaves from where the previous one arrived. */
  predicate IsChain(start: DefectStatus, h: seq<StatusChange>)
    decreases |h|
  {
    h == [] ||
    (h[0].fromStatus == start
     && IsValidTransition(h[0].fromStatus, h[0].toStatus)
     && IsChain(h[0].toStatus, h[1..]))
  }

  /** Where a ledger that leaves from `start` has arrived: the target of its last record. */
  function Reached(start: DefectStatus, h: seq<StatusChange>): DefectStatus
  {
    if h == [] then start else h[|h| - 1].toStatus
  }

  /** The chain property, record by record: first record, links between neighbours, and legality of each record. */
  predicate LinkedAt(start: DefectStatus, h: seq<StatusChange>)
  {
    && (|h| > 0 ==> h[0].fromStatus == start)
    && (forall i :: 0 < i < |h| ==> h[i].fromStatus == h[i - 1].toStatus)
    && (forall i :: 0 <= i < |h| ==> IsValidTransition(h[i].fromStatus, h[i].toStatus))
  }

  /** The recursive chain and the record-by-record description say the same thing. */
  lemma {:induction false} ChainIffLinked(start: DefectStatus, h: seq<StatusChange>)
    ensures IsChain(start, h) <==> LinkedAt(start, h)
    decreases |h|
  {
    if h != [] {
      var t := h[1..];
      ChainIffLinked(h[0].toStatus, t);
      if IsChain(start, h) {
        forall i | 0 < i < |h| ensures h[i].fromStatus == h[i - 1].toStatus {
          if i > 1 { assert h[i] == t[i - 1] && h[i - 1] == t[i - 2]; }
        }
        forall i | 0 <= i < |h| ensures IsValidTransition(h[i].fromStatus, h[i].toStatus) {
          if i > 0 { assert h[i] == t[i - 1]; }
        }
      }
      if LinkedAt(start, h) {
        assert LinkedAt(h[0].toStatus, t) by {
          forall i | 0 < i < |t| ensures t[i].fromStatus == t[i - 1].toStatus {
            assert t[i] == h[i + 1] && t[i - 1] == h[i];
          }
          forall i | 0 <= i < |t| ensures IsValidTransition(t[i].fromStatus, t[i].toStatus) {
            assert t[i] == h[i + 1];
          }
        }
      }
    }
  }

  /** Appending a legal move that leaves from where the chain has arrived keeps it a chain, and moves its end. */
  lemma {:induction false} ChainExtend(start: DefectStatus, h: seq<StatusChange>, c: StatusChange)
    requires IsChain(start, h)
    requires c.fromStatus == Reached(start, h)
    requires IsValidTransition(c.fromStatus, c.toStatus)
    ensures IsChain(start, h + [c])
    ensures Reached(start, h + [c]) == c.toStatus
    decreases |h|
  {
    if h == [] {
      assert h + [c] == [c];
      assert [c][1..] == [];
    } else {
      assert (h + [c])[1..] == h[1..] + [c];
      ChainExtend(h[0].toStatus, h[1..], c);
    }
  }

  // ---------------------------------------------------------------------------
  // change_status as a function on the ledger, and sequences of calls

  /** The record a successful request appends when the defect is at `current`. */
  function RecordOf(current: DefectStatus, req: ChangeRequest): StatusChange
  {
    StatusChange(current, req.newStatus, req.changedBy, req.at, req.comment)
  }

  /**
   * What one change_status call does to the ledger `h` of a defect whose
   * status is where `h` has arrived: either the extended ledger or the error.
   */
  function Attempt(h: seq<StatusChange>, req: ChangeRequest): (r: Result<seq<StatusChange>, TransitionError>)
    ensures r.Ok? <==> req.newStatus in GetAllowedTransitions(Reached(New, h))
    ensures r.Err? ==> r.error.fromStatus == Reached(New, h) && r.error.toStatus == req.newStatus
                       && r.error.allowed == GetAllowedTransitions(Reached(New, h))
    ensures r.Ok? ==> |r.value| == |h| + 1 && r.value[..|h|] == h
                      && Reached(New, r.value) == req.newStatus
    ensures r.Ok? && IsChain(New, h) ==> IsChain(New, r.value)
  {
    var current := Reached(New, h);
    if IsValidTransition(current, req.newStatus) then
      var h' := h + [RecordOf(current, req)];
      assert IsChain(New, h) ==> IsChain(New, h') by {
        if IsChain(New, h) { ChainExtend(New, h, RecordOf(current, req)); }
      }
      assert h'[..|h|] == h;
      Ok(h')
    else
      Err(InvalidTransition(current, req.newStatus, GetAllowedTransitions(current)))
  }

  /** The ledger after one call: extended on success, untouched when the call raised. */
  function After(h: seq<StatusChange>, req: ChangeRequest): seq<StatusChange>
  {
    match Attempt(h, req)
    case Ok(h') => h'
    case Err(_) => h
  }

  /**
   * The ledger function follows the method: on a valid defect, After extends
   * the history by exactly the record ChangeStatus appends when the move is
   * legal, and leaves it alone otherwise.
   */
  lemma AfterMatchesChangeStatus(h: seq<StatusChange>, req: ChangeRequest)
    requires IsChain(New, h)
    ensures IsValidTransition(Reached(New, h), req.newStatus) ==>
      After(h, req) == h + [StatusChange(Reached(New, h), req.newStatus, req.changedBy, req.at, req.comment)]
    ensures !IsValidTransition(Reached(New, h), req.newStatus) ==> After(h, req) == h
  {
  }

  /** The ledger after a sequence of calls, each failed call being caught by the caller. */
  function Replay(h: seq<StatusChange>, reqs: seq<ChangeRequest>): seq<StatusChange>
    decreases |reqs|
  {
    if reqs == [] then h else Replay(After(h, reqs[0]), reqs[1..])
  }

  /** The calls of a sequence that succeeded, in call order. */
  function Accepted(h: seq<StatusChange>, reqs: seq<ChangeRequest>): seq<ChangeRequest>
    decreases |reqs|
  {
    if reqs == [] then []
    else (if Attempt(h, reqs[0]).Ok? then [reqs[0]] else []) + Accepted(After(h, reqs[0]), reqs[1..])
  }

  /** Record `c` is the audit entry of request `req`. */
  predicate Records(c: StatusChange, req: ChangeRequest)
  {
    c.toStatus == req.newStatus && c.changedBy == req.changedBy && c.comment == req.comment && c.timestamp == req.at
  }

  /** After any sequence of calls the ledger is still a chain of legal moves leaving from New. */
  lemma {:induction false} ReplayKeepsChain(h: seq<StatusChange>, reqs: seq<ChangeRequest>)
    requires IsChain(New, h)
    ensures IsChain(New, Replay(h, reqs))
    decreases |reqs|
  {
    if reqs != [] {
      ReplayKeepsChain(After(h, reqs[0]), reqs[1..]);
    }
  }

  /**
   * A sequence of calls leaves the old ledger in place and appends exactly one
   * record per successful call, in call order, each carrying that call's
   * target, actor, comment and time.
   */
  lemma {:induction false} ReplayAppendsAccepted(h: seq<StatusChange>, reqs: seq<ChangeRequest>)
    ensures |Replay(h, reqs)| == |h| + |Accepted(h, reqs)|
    ensures Replay(h, reqs)[..|h|] == h
    ensures forall i :: 0 <= i < |Accepted(h, reqs)| ==> Records(Replay(h, reqs)[|h| + i], Accepted(h, reqs)[i])
    decreases |reqs|
  {
    if reqs != [] {
      var h1, rest := After(h, reqs[0]), reqs[1..];
      ReplayAppendsAccepted(h1, rest);
      if Attempt(h, reqs[0]).Ok? {
        AcceptedStep(h, reqs[0]);
        PrependRecord(h, h1, Replay(h1, rest), reqs[0], Accepted(h1, rest), Accepted(h, reqs));
      }
    }
  }

  /** A successful call extends the ledger by one record, the record of that call. */
  lemma AcceptedStep(h: seq<StatusChange>, req: ChangeRequest)
    requires Attempt(h, req).Ok?
    ensures |After(h, req)| == |h| + 1 && After(h, req)[..|h|] == h
    ensures Records(After(h, req)[|h|], req)
  {
  }

  /**
   * One accepted call in front: if `h1` is `h` plus the record of `req`, and
   * `r` is `h1` plus one record per request of `acc`, then `r` is `h` plus one
   * record per request of `[req] + acc`.
   */
  lemma PrependRecord(h: seq<StatusChange>, h1: seq<StatusChange>, r: seq<StatusChange>,
                      req: ChangeRequest, acc1: seq<ChangeRequest>, acc: seq<ChangeRequest>)
    requires |h1| == |h| + 1 && h1[..|h|] == h && Records(h1[|h|], req)
    requires |r| == |h1| + |acc1| && r[..|h1|] == h1
    requires forall i :: 0 <= i < |acc1| ==> Records(r[|h1| + i], acc1[i])
    requires acc == [req] + acc1
    ensures |r| == |h| + |acc| && r[..|h|] == h
    ensures forall i :: 0 <= i < |acc| ==> Records(r[|h| + i], acc[i])
  {
    assert r[..|h|] == r[..|h1|][..|h|];
    forall i | 0 <= i < |acc| ensures Records(r[|h| + i], acc[i]) {
      if i == 0 {
        assert r[|h|] == r[..|h1|][|h|];
      } else {
        assert acc[i] == acc1[i - 1];
        assert |h| + i == |h1| + (i - 1);
      }
    }
  }

  /** After any sequence of calls the defect sits at the target of the last successful call, or New if none succeeded. */
  lemma ReplayEndsAtLastAccepted(reqs: seq<ChangeRequest>)
    ensures var acc := Accepted([], reqs);
      Reached(New, Replay([], reqs)) == if acc == [] then New else acc[|acc| - 1].newStatus
  {
    ReplayAppendsAccepted([], reqs);
  }

  // ---------------------------------------------------------------------------
  // The mutable defect

  /** A tracked defect. Only its status, its assignee and its ledger ever change. */
  class Defect {
    const id: nat
    const title: string
    const description: string
    const priority: DefectPriority
    const createdBy: string
    const createdAt: Timestamp
    var status: DefectStatus
    var assignedTo: Option<string>
    var statusHistory: seq<StatusChange>

    /** The ledger invariant: the history is a legal chain from New and the status is where it has arrived. */
    predicate Valid()
      reads this
    {
      IsChain(New, statusHistory) && status == Reached(New, statusHistory)
    }

    /** A new defect: status New, no history, nobody assigned. */
    constructor (id: nat, title: string, description: string, priority: DefectPriority,
                 createdBy: string, createdAt: Timestamp)
      ensures Valid()
      ensures this.id == id && this.title == title && this.description == description
      ensures this.priority == priority && this.createdBy == createdBy && this.createdAt == createdAt
      ensures status == New && statusHistory == [] && assignedTo == None
    {
      this.id := id;
      this.title := title;
      this.description := description;
      this.priority := priority;
      this.createdBy := createdBy;
      this.createdAt := createdAt;
      status := New;
      assignedTo := None;
      statusHistory := [];
    }

    /**
     * Moves the defect to `newStatus`. An illegal move fails with the attempted
     * pair and the allowed targets and changes nothing; a legal one appends its
     * record and then sets the status, and returns true.
     */
    method ChangeStatus(newStatus: DefectStatus, changedBy: string, now: Timestamp, comment: string := "")
      returns (r: Result<bool, TransitionError>)
      requires Valid()
      modifies this`status, this`statusHistory
      ensures Valid()
      ensures IsValidTransition(old(status), newStatus) ==>
        && r == Ok(true)
        && status == newStatus
        && statusHistory == old(statusHistory) + [StatusChange(old(status), newStatus, changedBy, now, comment)]
      ensures !IsValidTransition(old(status), newStatus) ==>
        && r == Err(InvalidTransition(old(status), newStatus, GetAllowedTransitions(old(status))))
        && status == old(status)
        && statusHistory == old(statusHistory)
    {
      if !IsValidTransition(status, newStatus) {
        return Err(InvalidTransition(status, newStatus, GetAllowedTransitions(status)));
      }
      var change := StatusChange(status, newStatus, changedBy, now, comment);
      ChainExtend(New, statusHistory, change);
      statusHistory := statusHistory + [change];
      status := newStatus;
      r := Ok(true);
    }

    /** Assigns the defect to `user`, whatever its status. */
    method AssignTo(user: string)
      requires Valid()
      modifies this`assignedTo
      ensures Valid()
      ensures assignedTo == Some(user)
    {
      assignedTo := Some(user);
    }

    /** The ledger as a value: a legal chain from New that ends at the current status. */
    function GetStatusHistory(): (h: seq<StatusChange>)
      reads this
      requires Valid()
      ensures IsChain(New, h) && Reached(New, h) == status
      ensures |h| == |statusHistory| && forall i :: 0 <= i < |h| ==> h[i] == statusHistory[i]
    {
      statusHistory
    }
  }
}
