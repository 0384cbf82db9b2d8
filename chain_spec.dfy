/** The event-application approval chain as pure values.

    Both event engines (the string one in event_workflow/workflow and the
    enum one in src/app) review an application the same way; they differ in
    how roles and statuses are spelled. This module states the review once,
    generic in the role type `R`: `fm` is the budget-approval role ("FM",
    FIN_MANAGER) and `am` the final-approval role ("AM", ADM_MANAGER).
    Statuses are the strings stored in the history records. */
module ChainSpec {
  import opened Errors

  /** One audit record: who acted, the status they set, their comment.
      The source's timestamp is not modelled. */
  datatype Record<R> = Record(role: R, status: string, comment: string)

  /** What a review reads and writes of an application. */
  datatype AppState<R> = AppState(status: string, comment: string, history: seq<Record<R>>)

  /** Why a review or a status update is refused (each is a ValueError). */
  datatype ChainError =
    | FmBeforeForward   // "FM can only act after SCS has forwarded the application."
    | AmBeforeFm        // "AM cannot act before FM has reviewed the application."
    | InvalidDecision   // "Invalid decision: ..."
    | InvalidStatus     // "Invalid status: ..."

  /** A review request, as a caller submits it. */
  datatype Call<R> = Call(role: R, decision: string, comment: string)

  const PendingReview := "Pending Review"
  const Forwarded := "Forwarded"
  const Approved := "Approved"
  const Rejected := "Rejected"

  /** The statuses `update_status` accepts. */
  const ValidStatuses: seq<string> := [PendingReview, Forwarded, Approved, Rejected]

  /** The decisions `review_application` accepts. */
  const Decisions: seq<string> := [Forwarded, Approved, Rejected]

  /** A freshly created application: pending review, no live comment, and
      one "Created" record by its creator. */
  function Created<R>(createdBy: R): AppState<R> {
    AppState(PendingReview, "", [Record(createdBy, "Created", "Initial submission")])
  }

  /** The authors of the history, oldest first. */
  function Roles<R>(h: seq<Record<R>>): seq<R> {
    seq(|h|, i requires 0 <= i < |h| => h[i].role)
  }

  /** The role-order rule of a review: the budget-approval role needs the
      status Forwarded; the final-approval role needs the budget-approval
      role among the history's authors, whatever the status; every other
      role is not gated. */
  function OrderCheck<R(==)>(s: AppState<R>, fm: R, am: R, role: R): Outcome<ChainError> {
    if role == fm then
      (if s.status != Forwarded then Fail(FmBeforeForward) else Pass)
    else if role == am then
      (if fm !in Roles(s.history) then Fail(AmBeforeFm) else Pass)
    else Pass
  }

  /** `update_status`: a status outside the four valid ones is refused;
      otherwise the status is set, a budget-approval comment that is not
      empty becomes the live comment, and one record is appended. */
  function UpdatedStatus<R(==)>(s: AppState<R>, fm: R, role: R, newStatus: string, comment: string)
    : Result<AppState<R>, ChainError>
  {
    if newStatus !in ValidStatuses then Err(InvalidStatus)
    else
      var liveComment := if role == fm && comment != "" then comment else s.comment;
      Ok(AppState(newStatus, liveComment, s.history + [Record(role, newStatus, comment)]))
  }

  /** `review_application` once the application has been found: the role
      order is checked first, then the decision, then the status is updated
      and the budget-approval comment is stored again. */
  function Reviewed<R(==)>(s: AppState<R>, fm: R, am: R, role: R, decision: string, comment: string)
    : Result<AppState<R>, ChainError>
  {
    match OrderCheck(s, fm, am, role)
    case Fail(e) => Err(e)
    case Pass =>
      if decision !in Decisions then Err(InvalidDecision)
      else
        match UpdatedStatus(s, fm, role, decision, comment)
        case Err(e) => Err(e)
        case Ok(t) => Ok(if role == fm && comment != "" then t.(comment := comment) else t)
  }

  /** The application after a sequence of reviews, each refused review
      leaving it as it was (the caller catches the error and goes on). */
  function Replay<R(==)>(s: AppState<R>, fm: R, am: R, calls: seq<Call<R>>): AppState<R>
    decreases |calls|
  {
    if calls == [] then s
    else
      var c := calls[0];
      Replay(Reviewed(s, fm, am, c.role, c.decision, c.comment).GetOr(s), fm, am, calls[1..])
  }

  /** The status always agrees with the history: it is "Pending Review"
      while the "Created" record is the only one, and afterwards it is the
      status of the newest record. */
  ghost predicate Mirrors<R>(s: AppState<R>) {
    && |s.history| >= 1
    && s.history[0].status == "Created"
    && s.status == (if |s.history| == 1 then PendingReview else s.history[|s.history| - 1].status)
  }

  /** The order the chain promises, read off the history: every review by
      the budget-approval role was made on a Forwarded application, and every
      review by the final-approval role has an earlier record by the
      budget-approval role. The creation record (index 0) is not a review. */
  ghost predicate Ordered<R>(h: seq<Record<R>>, fm: R, am: R) {
    && (forall i :: 1 <= i < |h| && h[i].role == fm ==> 2 <= i && h[i - 1].status == Forwarded)
    && (forall i :: 1 <= i < |h| && h[i].role == am && am != fm ==>
          exists j :: 0 <= j < i && h[j].role == fm)
  }

  // ---------------------------------------------------------------------
  // Single reviews
  // ---------------------------------------------------------------------

  /** The ordering rule is a membership test over the history's authors. */
  lemma {:induction false} InRoles<R>(h: seq<Record<R>>, r: R)
    ensures r in Roles(h) <==> exists i :: 0 <= i < |h| && h[i].role == r
  {
    if r in Roles(h) {
      var i :| 0 <= i < |Roles(h)| && Roles(h)[i] == r;
      assert h[i].role == r;
    }
    if exists i :: 0 <= i < |h| && h[i].role == r {
      var i :| 0 <= i < |h| && h[i].role == r;
      assert Roles(h)[i] == r;
    }
  }

  /** A review is accepted exactly when the role order holds and the
      decision is Forwarded, Approved or Rejected. */
  lemma ReviewAccepted<R>(s: AppState<R>, fm: R, am: R, role: R, decision: string, comment: string)
    ensures Reviewed(s, fm, am, role, decision, comment).Ok? <==>
      && (role == fm ==> s.status == Forwarded)
      && (role != fm && role == am ==> exists i :: 0 <= i < |s.history| && s.history[i].role == fm)
      && decision in Decisions
  {
    InRoles(s.history, fm);
  }

  /** An accepted review sets the status to the decision, appends exactly
      one record (role, decision, comment), and changes the live comment
      only for a non-empty budget-approval comment. */
  lemma ReviewEffect<R>(s: AppState<R>, fm: R, am: R, role: R, decision: string, comment: string)
    requires Reviewed(s, fm, am, role, decision, comment).Ok?
    ensures var t := Reviewed(s, fm, am, role, decision, comment).value;
      && t.status == decision
      && t.history == s.history + [Record(role, decision, comment)]
      && t.comment == (if role == fm && comment != "" then comment else s.comment)
  {
  }

  /** The role checks come before the decision check: a budget-approval
      review of an application that is not Forwarded is refused for its
      order even when its decision is invalid too. */
  lemma OrderCheckedFirst<R>(s: AppState<R>, fm: R, am: R, role: R, decision: string, comment: string)
    requires role == fm && s.status != Forwarded
    ensures Reviewed(s, fm, am, role, decision, comment) == Err(FmBeforeForward)
  {
  }

  /** The final-approval role is refused exactly when no budget-approval
      record exists, whatever the current status, and admitted by one
      anywhere in the history. */
  lemma AmNeedsFmAnywhere<R>(s: AppState<R>, fm: R, am: R, decision: string, comment: string)
    requires am != fm
    ensures Reviewed(s, fm, am, am, decision, comment) == Err(AmBeforeFm)
        <==> forall i :: 0 <= i < |s.history| ==> s.history[i].role != fm
  {
    InRoles(s.history, fm);
  }

  /** Roles other than the two gated ones are not gated at all: with a valid
      decision they are accepted in every status, Approved and Rejected
      included. */
  lemma UngatedRoles<R>(s: AppState<R>, fm: R, am: R, role: R, decision: string, comment: string)
    requires role != fm && role != am && decision in Decisions
    ensures Reviewed(s, fm, am, role, decision, comment).Ok?
  {
  }

  /** A refused `update_status` is exactly one with a status outside the
      four valid ones. */
  lemma UpdateStatusAccepted<R>(s: AppState<R>, fm: R, role: R, newStatus: string, comment: string)
    ensures UpdatedStatus(s, fm, role, newStatus, comment).Ok? <==> newStatus in ValidStatuses
    ensures UpdatedStatus(s, fm, role, newStatus, comment).Ok? ==>
      UpdatedStatus(s, fm, role, newStatus, comment).value.history == s.history + [Record(role, newStatus, comment)]
  {
  }

  // ---------------------------------------------------------------------
  // Invariants of the chain
  // ---------------------------------------------------------------------

  /** A new application satisfies both invariants. */
  lemma CreatedIsWellFormed<R>(createdBy: R, fm: R, am: R)
    ensures Mirrors(Created(createdBy)) && Ordered(Created(createdBy).history, fm, am)
  {
  }

  /** `update_status` keeps the status in step with the history. */
  lemma UpdateStatusKeepsMirror<R>(s: AppState<R>, fm: R, role: R, newStatus: string, comment: string)
    requires Mirrors(s)
    requires UpdatedStatus(s, fm, role, newStatus, comment).Ok?
    ensures Mirrors(UpdatedStatus(s, fm, role, newStatus, comment).value)
  {
  }

  /** One accepted review keeps both invariants. */
  lemma ReviewKeepsInvariants<R>(s: AppState<R>, fm: R, am: R, role: R, decision: string, comment: string)
    requires Mirrors(s) && Ordered(s.history, fm, am)
    requires Reviewed(s, fm, am, role, decision, comment).Ok?
    ensures var t := Reviewed(s, fm, am, role, decision, comment).value;
      Mirrors(t) && Ordered(t.history, fm, am)
  {
    var t := Reviewed(s, fm, am, role, decision, comment).value;
    var h, n := t.history, |s.history|;
    assert h == s.history + [Record(role, decision, comment)];
    if role == fm {
      assert s.status == Forwarded;
      assert n >= 2 && h[n - 1].status == Forwarded;
    } else if role == am {
      InRoles(s.history, fm);
      var j :| 0 <= j < n && s.history[j].role == fm;
      assert h[j].role == fm;
    }
    forall i | 1 <= i < |h| && h[i].role == am && am != fm
      ensures exists j :: 0 <= j < i && h[j].role == fm
    {
      if i < n {
        var j :| 0 <= j < i && s.history[j].role == fm;
        assert h[j].role == fm;
      }
    }
  }

  /** Every sequence of reviews on a new application keeps both
      invariants: the chain's order holds of the whole history. */
  lemma {:induction false} ReplayKeepsInvariants<R>(s: AppState<R>, fm: R, am: R, calls: seq<Call<R>>)
    requires Mirrors(s) && Ordered(s.history, fm, am)
    ensures Mirrors(Replay(s, fm, am, calls)) && Ordered(Replay(s, fm, am, calls).history, fm, am)
    decreases |calls|
  {
    if calls != [] {
      var c := calls[0];
      var r := Reviewed(s, fm, am, c.role, c.decision, c.comment);
      if r.Ok? {
        ReviewKeepsInvariants(s, fm, am, c.role, c.decision, c.comment);
      }
      ReplayKeepsInvariants(r.GetOr(s), fm, am, calls[1..]);
    }
  }

  /** The history is append-only: every record ever written stays, in
      place, and one record is added per accepted review. */
  lemma {:induction false} ReplayAppends<R>(s: AppState<R>, fm: R, am: R, calls: seq<Call<R>>)
    ensures s.history <= Replay(s, fm, am, calls).history
    ensures |Replay(s, fm, am, calls).history| <= |s.history| + |calls|
    decreases |calls|
  {
    if calls != [] {
      var c := calls[0];
      var r := Reviewed(s, fm, am, c.role, c.decision, c.comment);
      ReplayAppends(r.GetOr(s), fm, am, calls[1..]);
    }
  }

  /** Once the budget-approval role has acted, the final-approval role is
      never again refused for its order. */
  lemma FmActedStaysActed<R>(s: AppState<R>, fm: R, am: R, calls: seq<Call<R>>, decision: string, comment: string)
    requires fm in Roles(s.history) && am != fm
    ensures Reviewed(Replay(s, fm, am, calls), fm, am, am, decision, comment) != Err(AmBeforeFm)
  {
    var h := Replay(s, fm, am, calls).history;
    ReplayAppends(s, fm, am, calls);
    InRoles(s.history, fm);
    var j :| 0 <= j < |s.history| && s.history[j].role == fm;
    assert h[j] == s.history[j];
    InRoles(h, fm);
  }

  /** The end-to-end chain: forwarded by the customer-service senior, then
      forwarded by the budget-approval role with "Budget OK", then approved
      by the final-approval role, gives status Approved, live comment
      "Budget OK" and four records. */
  lemma ApprovalChainScenario<R>(createdBy: R, scs: R, fm: R, am: R)
    requires scs != fm && scs != am && fm != am
    ensures var t := Replay(Created(createdBy), fm, am,
                            [Call(scs, Forwarded, ""), Call(fm, Forwarded, "Budget OK"), Call(am, Approved, "")]);
      t.status == Approved && t.comment == "Budget OK" && |t.history| == 4
  {
    var calls := [Call(scs, Forwarded, ""), Call(fm, Forwarded, "Budget OK"), Call(am, Approved, "")];
    var s0 := Created(createdBy);
    var s1 := Reviewed(s0, fm, am, scs, Forwarded, "").value;
    var s2 := Reviewed(s1, fm, am, fm, Forwarded, "Budget OK").value;
    assert s2.history[2].role == fm;
    InRoles(s2.history, fm);
    var s3 := Reviewed(s2, fm, am, am, Approved, "").value;
    assert Replay(s2, fm, am, calls[2..]) == Replay(s3, fm, am, []) == s3;
    assert Replay(s1, fm, am, calls[1..]) == Replay(s2, fm, am, calls[2..]);
    assert Replay(s0, fm, am, calls) == Replay(s1, fm, am, calls[1..]);
  }
}
