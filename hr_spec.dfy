/** The HR-request rules shared by the string-status request
    (Inner_system/hr/hr_request.py) and the enum-status request
    (src/staff_recruitment.py).

    A request moves Pending -> Approved or Rejected, and an approved request
    moves to its final staffed status ("Fulfilled" in one, HIRED in the
    other) when a staff member is taken on. `S` is the type of the staff
    objects the request lists. */
module HrSpec {
  import opened Errors

  datatype HrStatus = Pending | Approved | Rejected | Staffed

  /** The request's status and the staff it lists, in order. */
  datatype HrState<S> = HrState(status: HrStatus, staff: seq<S>)

  datatype HrError = ApproveNotPending | RejectNotPending | StaffBeforeApproval

  datatype Op<S> = ApproveOp | RejectOp | StaffOp(member: S)

  /** A new request: Pending, with no staff. */
  function Opened<S>(): HrState<S> {
    HrState(Pending, [])
  }

  /** `approve`: only a Pending request can be approved. */
  function AfterApprove<S>(h: HrState<S>): Result<HrState<S>, HrError> {
    if h.status != Pending then Err(ApproveNotPending) else Ok(h.(status := Approved))
  }

  /** `reject`: only a Pending request can be rejected. */
  function AfterReject<S>(h: HrState<S>): Result<HrState<S>, HrError> {
    if h.status != Pending then Err(RejectNotPending) else Ok(h.(status := Rejected))
  }

  /** Assigning or hiring staff: only an approved request takes a staff
      member; it appends the member and becomes staffed. */
  function AfterStaff<S>(h: HrState<S>, member: S): Result<HrState<S>, HrError> {
    if h.status != Approved then Err(StaffBeforeApproval)
    else Ok(HrState(Staffed, h.staff + [member]))
  }

  function Step<S>(h: HrState<S>, op: Op<S>): Result<HrState<S>, HrError> {
    match op
    case ApproveOp => AfterApprove(h)
    case RejectOp => AfterReject(h)
    case StaffOp(m) => AfterStaff(h, m)
  }

  /** The request after a sequence of calls; a refused call raises and
      changes nothing. */
  function Run<S>(h: HrState<S>, ops: seq<Op<S>>): HrState<S>
    decreases |ops|
  {
    if ops == [] then h else Run(Step(h, ops[0]).GetOr(h), ops[1..])
  }

  /** At most one staff member, listed exactly when the request is staffed. */
  ghost predicate Consistent<S>(h: HrState<S>) {
    |h.staff| <= 1 && (|h.staff| == 1 <==> h.status == Staffed)
  }

  /** Rejected and staffed requests are final. */
  predicate Final<S>(h: HrState<S>) {
    h.status == Rejected || h.status == Staffed
  }

  /** Exactly which calls raise, and which error each raises. */
  lemma StepRefusedIff<S>(h: HrState<S>, op: Op<S>)
    ensures Step(h, op).Err? <==>
      || (!op.StaffOp? && h.status != Pending)
      || (op.StaffOp? && h.status != Approved)
    ensures op.ApproveOp? && Step(h, op).Err? ==> Step(h, op).error == ApproveNotPending
    ensures op.RejectOp? && Step(h, op).Err? ==> Step(h, op).error == RejectNotPending
    ensures op.StaffOp? && Step(h, op).Err? ==> Step(h, op).error == StaffBeforeApproval
  {
  }

  /** A final request refuses every call. */
  lemma FinalRefusesAll<S>(h: HrState<S>, op: Op<S>)
    requires Final(h)
    ensures Step(h, op).Err?
  {
  }

  /** Every accepted call keeps the request consistent. */
  lemma StepKeepsConsistent<S>(h: HrState<S>, op: Op<S>)
    requires Consistent(h)
    ensures Consistent(Step(h, op).GetOr(h))
  {
  }

  /** From a new request, at most one staff member is ever listed, and one
      is listed exactly when the request is staffed. */
  lemma {:induction false} RunKeepsConsistent<S>(h: HrState<S>, ops: seq<Op<S>>)
    requires Consistent(h)
    ensures Consistent(Run(h, ops))
    decreases |ops|
  {
    if ops != [] {
      StepKeepsConsistent(h, ops[0]);
      RunKeepsConsistent(Step(h, ops[0]).GetOr(h), ops[1..]);
    }
  }

  /** Nothing changes a final request. */
  lemma {:induction false} FinalIsFinal<S>(h: HrState<S>, ops: seq<Op<S>>)
    requires Final(h)
    ensures Run(h, ops) == h
    decreases |ops|
  {
    if ops != [] {
      FinalRefusesAll(h, ops[0]);
      FinalIsFinal(h, ops[1..]);
    }
  }

  /** Every staff member a request lists was already listed or was passed
      to one of the staff calls made. */
  lemma {:induction false} StaffFromCalls<S>(h: HrState<S>, ops: seq<Op<S>>)
    ensures forall x :: x in Run(h, ops).staff ==> x in h.staff || StaffOp(x) in ops
    decreases |ops|
  {
    if ops != [] {
      var e := Step(h, ops[0]).GetOr(h);
      StaffFromCalls(e, ops[1..]);
      assert Run(h, ops) == Run(e, ops[1..]);
      forall x | x in Run(h, ops).staff
        ensures x in h.staff || StaffOp(x) in ops
      {
        if x in e.staff && x !in h.staff {
          assert ops[0] == StaffOp(x);
        } else if StaffOp(x) in ops[1..] {
          var k :| 0 <= k < |ops[1..]| && ops[1..][k] == StaffOp(x);
          assert ops[k + 1] == StaffOp(x);
        }
      }
    }
  }

  /** Only an approved request becomes staffed, and only through a staff call. */
  lemma StaffedOnlyFromApproved<S>(h: HrState<S>, op: Op<S>)
    requires h.status != Staffed && Step(h, op).GetOr(h).status == Staffed
    ensures h.status == Approved && op.StaffOp?
  {
  }

  /** The test traces: approve then staff ends staffed with one member;
      approve after reject and reject after approve are refused; staffing a
      Pending request is refused. */
  lemma HrTraces<S>(m: S)
    ensures Run(Opened<S>(), [ApproveOp, StaffOp(m)]) == HrState(Staffed, [m])
    ensures AfterApprove(Run(Opened<S>(), [RejectOp])) == Err(ApproveNotPending)
    ensures AfterReject(Run(Opened<S>(), [ApproveOp])) == Err(RejectNotPending)
    ensures AfterStaff(Opened(), m) == Err(StaffBeforeApproval)
  {
    var ops := [ApproveOp, StaffOp(m)];
    assert Step(Opened<S>(), ops[0]) == Ok(HrState(Approved, []));
    var s1: HrState<S> := HrState(Approved, []);
    assert Run(Opened<S>(), ops) == Run(s1, ops[1..]);
    assert ops[1..] == [StaffOp(m)];
    assert s1.staff + [m] == [m];
    assert Step(s1, StaffOp(m)) == Ok(HrState(Staffed, [m]));
    assert Run(s1, [StaffOp(m)]) == Run(HrState(Staffed, [m]), []);
  }
}
