/**
 Holdout containment. Ingest, planning cycles, human approvals, sweeps and captures run
 concurrently over the case table; a planner acts on the rows it loaded, which may since
 have been closed or planned by somebody else. The arm is what keeps a held-out case out of
 both routes to the dispatcher, although the approval route never looks at it.
*/
module Recovery {
  import opened Options
  import opened Opportunity
  import opened Policy

  /** An action row and whether it has been marked dispatched. */
  datatype Action = Action(caseId: nat, dispatched: bool)

  /** A capture credited to an action, or to nobody. */
  datatype Attribution = Attribution(caseId: nat, action: Option<nat>)

  datatype Recorder = Recorder(attribution: Attribution, checked: bool)

  datatype World = World(
    db: Db,
    actions: seq<Action>,
    outcomes: seq<Attribution>,
    proposals: set<nat>,
    planners: map<nat, map<nat, Arm>>,
    reviewers: map<nat, nat>,
    recorders: map<nat, Recorder>,
    contaminated: bool)

  /** The dispatcher's answer: no new row for a duplicate, else a row that was sent or not. */
  type Row = Option<bool>

  datatype Step =
    | Deliver(event: Event, seen: bool)
    | LoadCases(pid: nat, merchant: MerchantId)
    | StopCase(pid: nat, c: nat)
    | Act(pid: nat, c: nat, verdict: PolicyVerdict, row: Row)
    | AwaitOutcome(pid: nat, c: nat)
    | Review(pid: nat, c: nat)
    | Reject(pid: nat)
    | Approve(pid: nat, recheck: PolicyVerdict, row: Row)
    | AwaitApproved(pid: nat, c: nat)
    | Leave(pid: nat)
    | Sweep(index: nat)
    | Attribute(pid: nat, c: nat, action: Option<nat>)
    | CheckOutcome(pid: nat)
    | InsertOutcome(pid: nat)

  function Fresh(db: Db): World {
    World(db, [], [], {}, map[], map[], map[], false)
  }

  /** Whether the table's constraints let a row take a state. */
  predicate Writable(cases: seq<Case>, c: nat, st: CaseState)
    requires c < |cases|
  {
    && (cases[c].state.Stopped? ==> st.Stopped?)
    && (st.Live() && !cases[c].state.Live() ==> !HasLive(cases, cases[c].obligation))
  }

  /** An unconditional update, refused only by a constraint. */
  function Write(cases: seq<Case>, c: nat, st: CaseState): (r: seq<Case>)
    ensures |r| == |cases|
  {
    if c < |cases| && Writable(cases, c, st) then
      cases[c := cases[c].(state := st, version := cases[c].version + 1)]
    else cases
  }

  function WriteState(w: World, c: nat, st: CaseState): World {
    w.(db := w.db.(cases := Write(w.db.cases, c, st)))
  }

  function AddRow(w: World, c: nat, row: Row): World {
    if row.None? then w else w.(actions := w.actions + [Action(c, row.value)])
  }

  predicate Workable(c: Case, merchant: MerchantId) {
    (c.state.Open? || c.state.Planning?) && c.merchant == merchant
  }

  /** The open cases of a merchant with their arms, as a planner reads them. */
  function OpenCases(cases: seq<Case>, merchant: MerchantId): map<nat, Arm> {
    map c | 0 <= c < |cases| && Workable(cases[c], merchant) :: cases[c].arm
  }

  predicate WasDispatched(w: World, c: nat) {
    exists i :: 0 <= i < |w.actions| && w.actions[i] == Action(c, true)
  }

  predicate HasOutcome(outcomes: seq<Attribution>, c: nat) {
    exists i :: 0 <= i < |outcomes| && outcomes[i].caseId == c
  }

  predicate AwaitsReview(cases: seq<Case>, c: nat) {
    c < |cases| && cases[c].state.Escalated?
  }

  predicate Credits(w: World, c: nat, action: Option<nat>) {
    action.Some? ==> action.value < |w.actions| && w.actions[action.value] == Action(c, true)
  }

  function Next(split: Split, w: World, step: Step): World {
    match step
    case Deliver(e, seen) =>
      var (next, verdict) := Ingest(split, w.db, e, seen);
      if verdict.Malformed? then w else w.(db := next)
    case LoadCases(pid, merchant) => w.(planners := w.planners[pid := OpenCases(w.db.cases, merchant)])
    case StopCase(pid, c) =>
      if pid in w.planners && c in w.planners[pid] then WriteState(w, c, Stopped) else w
    case Act(pid, c, verdict, row) =>
      if pid !in w.planners || c !in w.planners[pid] then w
      else
        var decided := if verdict.Hold? then w.(proposals := w.proposals + {c}) else w;
        if w.planners[pid][c].Holdout? then WriteState(decided, c, HeldOut)
        else if verdict.Block? then WriteState(decided, c, Open)
        else if verdict.Hold? then WriteState(decided, c, Escalated)
        else AddRow(decided, c, row)
    case AwaitOutcome(pid, c) =>
      if pid in w.planners && c in w.planners[pid] && WasDispatched(w, c) then WriteState(w, c, AwaitingOutcome) else w
    case Review(pid, c) =>
      if AwaitsReview(w.db.cases, c) && c in w.proposals then w.(reviewers := w.reviewers[pid := c]) else w
    case Reject(pid) => if pid in w.reviewers then WriteState(w, w.reviewers[pid], Stopped) else w
    case Approve(pid, recheck, row) =>
      if pid !in w.reviewers || recheck.Block? then w else AddRow(w, w.reviewers[pid], row)
    case AwaitApproved(pid, c) =>
      if pid in w.reviewers && w.reviewers[pid] == c && WasDispatched(w, c) then WriteState(w, c, AwaitingOutcome)
      else w
    case Leave(pid) =>
      w.(planners := w.planners - {pid}, reviewers := w.reviewers - {pid}, recorders := w.recorders - {pid})
    case Sweep(i) =>
      if i < |w.actions| then w.(actions := w.actions[i := w.actions[i].(dispatched := true)]) else w
    case Attribute(pid, c, action) =>
      if c >= |w.db.cases| || !Credits(w, c, action) then w
      else if w.db.cases[c].arm.Holdout? && action.Some? then w.(contaminated := true)
      else w.(recorders := w.recorders[pid := Recorder(Attribution(c, action), false)])
    case CheckOutcome(pid) =>
      if pid !in w.recorders then w
      else if HasOutcome(w.outcomes, w.recorders[pid].attribution.caseId) then w.(recorders := w.recorders - {pid})
      else w.(recorders := w.recorders[pid := w.recorders[pid].(checked := true)])
    case InsertOutcome(pid) =>
      if pid !in w.recorders || !w.recorders[pid].checked then w
      else w.(outcomes := w.outcomes + [w.recorders[pid].attribution], recorders := w.recorders - {pid})
  }

  function Run(split: Split, w: World, steps: seq<Step>): World
    decreases |steps|
  {
    if steps == [] then w else Run(split, Next(split, w, steps[0]), steps[1..])
  }

  // What planning leaves on a live case

  /** The table with one case in another state and one version on. */
  function Moved(cases: seq<Case>, c: nat, st: CaseState): seq<Case>
    requires c < |cases|
  {
    var row := cases[c];
    cases[c := Case(row.obligation, row.merchant, row.customer, st, row.arm, row.version + 1)]
  }

  /**
   Acting on a live case the planner loaded: a held-out case is recorded as held out, a blocked
   one goes back to open, one that needs a human is escalated with its proposal, and only the
   rest get an action row.
  */
  lemma ActLeaves(split: Split, w: World, pid: nat, c: nat, verdict: PolicyVerdict, row: Row)
    requires pid in w.planners && c in w.planners[pid] && c < |w.db.cases| && w.db.cases[c].state.Live()
    ensures var next := Next(split, w, Act(pid, c, verdict, row));
            var heldOut := w.planners[pid][c] == Holdout;
            && next.db.cases == (if heldOut then Moved(w.db.cases, c, CaseState.HeldOut)
                                 else match verdict
                                      case Block => Moved(w.db.cases, c, Open)
                                      case Hold => Moved(w.db.cases, c, Escalated)
                                      case Allow => w.db.cases)
            && next.proposals == w.proposals + (if verdict == Hold then {c} else {})
            && next.actions
            == w.actions + if !heldOut && verdict == Allow && row.Some? then [Action(c, row.value)] else []
  {
  }

  /** A stop ends a live case; a case waits for its outcome exactly when something was sent for it. */
  lemma StopAndAwaitLeave(split: Split, w: World, pid: nat, c: nat)
    requires pid in w.planners && c in w.planners[pid] && c < |w.db.cases| && w.db.cases[c].state.Live()
    ensures Next(split, w, StopCase(pid, c)).db.cases == Moved(w.db.cases, c, Stopped)
    ensures Next(split, w, AwaitOutcome(pid, c)).db.cases
         == if Action(c, true) in w.actions then Moved(w.db.cases, c, AwaitingOutcome) else w.db.cases
  {
  }

  /** A rejection stops the case; an approval adds the dispatcher's row unless the recheck now blocks it. */
  lemma ReviewLeaves(split: Split, w: World, pid: nat, recheck: PolicyVerdict, row: Row)
    requires pid in w.reviewers && w.reviewers[pid] < |w.db.cases| && w.db.cases[w.reviewers[pid]].state.Live()
    ensures Next(split, w, Reject(pid)).db.cases == Moved(w.db.cases, w.reviewers[pid], Stopped)
    ensures Next(split, w, Reject(pid)).actions == w.actions
    ensures var next := Next(split, w, Approve(pid, recheck, row));
            && next.db == w.db
            && next.actions
            == w.actions + if recheck != Block && row.Some? then [Action(w.reviewers[pid], row.value)] else []
  {
  }

  /**
   A capture is credited only to a row of its own case that was sent; credit on a held-out
   case raises the alarm and records nothing.
  */
  lemma AttributionLeaves(split: Split, w: World, pid: nat, c: nat, action: Option<nat>)
    requires c < |w.db.cases|
    ensures var next := Next(split, w, Attribute(pid, c, action));
            var credited := action.Some? && action.value < |w.actions| && w.actions[action.value] == Action(c, true);
            var alarm := credited && w.db.cases[c].arm == Holdout;
            && next.contaminated == (w.contaminated || alarm)
            && next.recorders == if action.None? || (credited && !alarm)
                                 then w.recorders[pid := Recorder(Attribution(c, action), false)] else w.recorders
  {
  }

  lemma SweepLeaves(split: Split, w: World, i: nat)
    requires i < |w.actions|
    ensures Next(split, w, Step.Sweep(i)).actions == w.actions[i := Action(w.actions[i].caseId, true)]
  {
  }

  /** A planner loads exactly the open and half-planned cases of its merchant, with their arms. */
  lemma LoadsTheOpenCases(split: Split, w: World, pid: nat, merchant: MerchantId)
    ensures var loaded := Next(split, w, LoadCases(pid, merchant)).planners;
            && pid in loaded
            && forall c: nat ::
                 (c in loaded[pid] <==> c < |w.db.cases| && w.db.cases[c].merchant == merchant
                                        && (w.db.cases[c].state == Open || w.db.cases[c].state == Planning))
                 && (c in loaded[pid] ==> loaded[pid][c] == w.db.cases[c].arm)
  {
  }

  // Containment

  ghost predicate InTreatment(cases: seq<Case>, c: nat) {
    c < |cases| && cases[c].arm.Treatment?
  }

  /** A held-out case is only ever open, held out, stopped or recovered. */
  ghost predicate Untreated(c: Case) {
    c.arm.Holdout? ==> c.state.Open? || c.state.HeldOut? || c.state.Stopped? || c.state.Recovered?
  }

  ghost predicate TableOk(split: Split, cases: seq<Case>) {
    && OneLivePerObligation(cases) && ArmsAssigned(split, cases)
    && forall c :: 0 <= c < |cases| ==> Untreated(cases[c])
  }

  /** What a planner loaded still names the arms of existing cases. */
  ghost predicate SnapshotOk(cases: seq<Case>, loaded: map<nat, Arm>) {
    forall c :: c in loaded ==> c < |cases| && loaded[c] == cases[c].arm
  }

  ghost predicate SnapshotsOk(w: World) {
    forall pid :: pid in w.planners ==> SnapshotOk(w.db.cases, w.planners[pid])
  }

  ghost predicate Contained(w: World) {
    && (forall i :: 0 <= i < |w.actions| ==> InTreatment(w.db.cases, w.actions[i].caseId))
    && (forall pid :: pid in w.reviewers ==> InTreatment(w.db.cases, w.reviewers[pid]))
    && (forall pid :: pid in w.recorders && w.recorders[pid].attribution.action.Some? ==>
                        InTreatment(w.db.cases, w.recorders[pid].attribution.caseId))
    && (forall i :: 0 <= i < |w.outcomes| && w.outcomes[i].action.Some? ==>
                      InTreatment(w.db.cases, w.outcomes[i].caseId))
    && !w.contaminated
  }

  ghost predicate Inv(split: Split, w: World) {
    TableOk(split, w.db.cases) && SnapshotsOk(w) && Contained(w)
  }

  /** Rows only change state and version, and new rows come after them. */
  ghost predicate SameRows(before: seq<Case>, after: seq<Case>) {
    && |before| <= |after|
    && forall c :: 0 <= c < |before| ==>
         after[c] == before[c].(state := after[c].state, version := after[c].version)
  }

  lemma WriteKeeps(split: Split, cases: seq<Case>, c: nat, st: CaseState)
    requires TableOk(split, cases)
    requires c < |cases| && cases[c].arm.Holdout? ==> st.Open? || st.HeldOut? || st.Stopped?
    ensures TableOk(split, Write(cases, c, st)) && SameRows(cases, Write(cases, c, st))
  {
    var after := Write(cases, c, st);
    if after != cases && st.Live() && !cases[c].state.Live() {
      forall i | 0 <= i < |cases| && i != c && cases[i].state.Live()
        ensures cases[i].obligation != cases[c].obligation {
        assert !LiveFor(cases[i], cases[c].obligation);
      }
    }
  }

  lemma DeliverKeeps(split: Split, db: Db, e: Event, seen: bool)
    requires TableOk(split, db.cases)
    ensures var next := Ingest(split, db, e, seen).0;
            TableOk(split, next.cases) && SameRows(db.cases, next.cases)
  {
    IngestKeeps(split, db, e, seen);
    var next := Ingest(split, db, e, seen).0;
    forall c | 0 <= c < |next.cases| ensures Untreated(next.cases[c]) {
      assert c < |db.cases| ==> Untreated(db.cases[c]);
    }
  }

  /** Everything that refers to rows by arm survives a change of the table that keeps its rows. */
  lemma RowsKept(split: Split, w: World, db: Db)
    requires Inv(split, w) && TableOk(split, db.cases) && SameRows(w.db.cases, db.cases)
    ensures Inv(split, w.(db := db))
  {
    forall c: nat | InTreatment(w.db.cases, c) ensures InTreatment(db.cases, c) {
    }
  }

  lemma StateWriteKeeps(split: Split, w: World, c: nat, st: CaseState)
    requires Inv(split, w)
    requires st.Open? || st.HeldOut? || st.Stopped? || InTreatment(w.db.cases, c)
    ensures Inv(split, WriteState(w, c, st))
  {
    WriteKeeps(split, w.db.cases, c, st);
    RowsKept(split, w, WriteState(w, c, st).db);
  }

  lemma DispatchedIsTreated(w: World, c: nat)
    requires Contained(w) && WasDispatched(w, c)
    ensures InTreatment(w.db.cases, c)
  {
  }

  lemma RowKeeps(split: Split, w: World, c: nat, row: Row)
    requires Inv(split, w) && InTreatment(w.db.cases, c)
    ensures Inv(split, AddRow(w, c, row))
  {
  }

  lemma ActKeeps(split: Split, w: World, pid: nat, c: nat, verdict: PolicyVerdict, row: Row)
    requires Inv(split, w)
    ensures Inv(split, Next(split, w, Act(pid, c, verdict, row)))
  {
    if pid in w.planners && c in w.planners[pid] {
      assert SnapshotOk(w.db.cases, w.planners[pid]);
      if w.planners[pid][c].Holdout? {
        StateWriteKeeps(split, w, c, HeldOut);
      } else {
        match verdict
        case Block => StateWriteKeeps(split, w, c, Open);
        case Hold => StateWriteKeeps(split, w, c, Escalated);
        case Allow => RowKeeps(split, w, c, row);
      }
    }
  }

  lemma AwaitKeeps(split: Split, w: World, c: nat)
    requires Inv(split, w) && WasDispatched(w, c)
    ensures Inv(split, WriteState(w, c, AwaitingOutcome))
  {
    DispatchedIsTreated(w, c);
    StateWriteKeeps(split, w, c, AwaitingOutcome);
  }

  lemma ReviewKeeps(split: Split, w: World, step: Step)
    requires Inv(split, w) && (step.Review? || step.Reject? || step.Approve?)
    ensures Inv(split, Next(split, w, step))
  {
    match step
    case Review(pid, c) =>
      assert c < |w.db.cases| ==> Untreated(w.db.cases[c]);
    case Reject(pid) =>
      if pid in w.reviewers {
        StateWriteKeeps(split, w, w.reviewers[pid], Stopped);
      }
    case Approve(pid, recheck, row) =>
      if pid in w.reviewers {
        RowKeeps(split, w, w.reviewers[pid], row);
      }
  }

  lemma LeaveKeeps(split: Split, w: World, pid: nat)
    requires Inv(split, w)
    ensures Inv(split, Next(split, w, Leave(pid)))
  {
    var next := Next(split, w, Leave(pid));
    assert forall p :: p in next.planners ==> p in w.planners && next.planners[p] == w.planners[p];
    assert forall p :: p in next.reviewers ==> p in w.reviewers && next.reviewers[p] == w.reviewers[p];
    assert forall p :: p in next.recorders ==> p in w.recorders && next.recorders[p] == w.recorders[p];
  }

  lemma SweepKeeps(split: Split, w: World, i: nat)
    requires Inv(split, w)
    ensures Inv(split, Next(split, w, Sweep(i)))
  {
  }

  /** A credited action belongs to a treated case, so the contamination check passes. */
  lemma AttributeKeeps(split: Split, w: World, pid: nat, c: nat, action: Option<nat>)
    requires Inv(split, w)
    ensures Inv(split, Next(split, w, Attribute(pid, c, action)))
  {
    if Credits(w, c, action) && action.Some? {
      assert InTreatment(w.db.cases, w.actions[action.value].caseId);
    }
  }

  lemma OutcomeKeeps(split: Split, w: World, step: Step)
    requires Inv(split, w) && (step.CheckOutcome? || step.InsertOutcome?)
    ensures Inv(split, Next(split, w, step))
  {
    var next := Next(split, w, step);
    assert next == w.(outcomes := next.outcomes, recorders := next.recorders);
    assert forall p :: p in next.recorders ==>
             p in w.recorders && next.recorders[p].attribution == w.recorders[p].attribution;
  }

  lemma StepKeeps(split: Split, w: World, step: Step)
    requires Inv(split, w)
    ensures Inv(split, Next(split, w, step))
  {
    match step
    case Deliver(e, seen) =>
      DeliverKeeps(split, w.db, e, seen);
      RowsKept(split, w, Ingest(split, w.db, e, seen).0);
    case LoadCases(pid, merchant) =>
    case StopCase(pid, c) => StateWriteKeeps(split, w, c, Stopped);
    case Act(pid, c, verdict, row) => ActKeeps(split, w, pid, c, verdict, row);
    case AwaitOutcome(pid, c) =>
      if WasDispatched(w, c) {
        AwaitKeeps(split, w, c);
      }
    case AwaitApproved(pid, c) =>
      if WasDispatched(w, c) {
        AwaitKeeps(split, w, c);
      }
    case Review(_, _) => ReviewKeeps(split, w, step);
    case Reject(_) => ReviewKeeps(split, w, step);
    case Approve(_, _, _) => ReviewKeeps(split, w, step);
    case Leave(pid) => LeaveKeeps(split, w, pid);
    case Sweep(i) => SweepKeeps(split, w, i);
    case Attribute(pid, c, action) => AttributeKeeps(split, w, pid, c, action);
    case _ => OutcomeKeeps(split, w, step);
  }

  lemma {:induction false} RunKeeps(split: Split, w: World, steps: seq<Step>)
    requires Inv(split, w)
    ensures Inv(split, Run(split, w, steps))
    decreases |steps|
  {
    if steps != [] {
      StepKeeps(split, w, steps[0]);
      RunKeeps(split, Next(split, w, steps[0]), steps[1..]);
    }
  }

  lemma DeliveryLeavesStopped(split: Split, db: Db, e: Event, seen: bool, c: nat)
    requires c < |db.cases| && db.cases[c].state == Stopped
    ensures var cases := Ingest(split, db, e, seen).0.cases;
            c < |cases| && cases[c].state == Stopped
  {
  }

  lemma WriteLeavesStopped(cases: seq<Case>, k: nat, st: CaseState, c: nat)
    requires c < |cases| && cases[c].state == Stopped
    ensures Write(cases, k, st)[c].state == Stopped
  {
  }

  lemma StoppedStays(split: Split, w: World, step: Step, c: nat)
    requires c < |w.db.cases| && w.db.cases[c].state == Stopped
    ensures var cases := Next(split, w, step).db.cases;
            c < |cases| && cases[c].state == Stopped
  {
    forall k, st ensures Write(w.db.cases, k, st)[c].state == Stopped {
      WriteLeavesStopped(w.db.cases, k, st, c);
    }
    if step.Deliver? {
      DeliveryLeavesStopped(split, w.db, step.event, step.seen, c);
    }
  }

  /** A stopped case is stopped for good: the table's constraint holds whoever writes, and no capture reopens it. */
  lemma {:induction false} StoppedIsFinal(split: Split, w: World, steps: seq<Step>, c: nat)
    requires c < |w.db.cases| && w.db.cases[c].state == Stopped
    ensures var cases := Run(split, w, steps).db.cases;
            c < |cases| && cases[c].state == Stopped
    decreases |steps|
  {
    if steps != [] {
      StoppedStays(split, w, steps[0], c);
      StoppedIsFinal(split, Next(split, w, steps[0]), steps[1..], c);
    }
  }

  /**
   In every run, however ingest, planning, approvals, sweeps and captures interleave: a
   held-out case has no action row and is never escalated or awaiting an outcome, all of its
   recoveries are organic, and the contamination check never fires.
  */
  lemma HoldoutIsNeverTreated(split: Split, db: Db, steps: seq<Step>, c: nat)
    requires db.cases == []
    ensures var w := Run(split, Fresh(db), steps);
            c < |w.db.cases| && w.db.cases[c].arm.Holdout? ==>
              && (forall i :: 0 <= i < |w.actions| ==> w.actions[i].caseId != c)
              && !w.db.cases[c].state.Escalated? && !w.db.cases[c].state.AwaitingOutcome?
              && (forall i :: 0 <= i < |w.outcomes| && w.outcomes[i].caseId == c ==> w.outcomes[i].action.None?)
    ensures !Run(split, Fresh(db), steps).contaminated
  {
    RunKeeps(split, Fresh(db), steps);
    var w := Run(split, Fresh(db), steps);
    if c < |w.db.cases| && w.db.cases[c].arm.Holdout? {
      assert Untreated(w.db.cases[c]);
      forall i | 0 <= i < |w.actions| ensures w.actions[i].caseId != c {
        assert InTreatment(w.db.cases, w.actions[i].caseId);
      }
      forall i | 0 <= i < |w.outcomes| && w.outcomes[i].caseId == c ensures w.outcomes[i].action.None? {
        assert w.outcomes[i].action.Some? ==> InTreatment(w.db.cases, w.outcomes[i].caseId);
      }
    }
  }

  /** A customer is never half held out, and an obligation never has two live cases. */
  lemma CustomersShareAnArm(split: Split, db: Db, steps: seq<Step>, c: nat, d: nat)
    requires db.cases == []
    ensures var cases := Run(split, Fresh(db), steps).db.cases;
            c < |cases| && d < |cases| && cases[c].merchant == cases[d].merchant
            && cases[c].customer == cases[d].customer
            ==> cases[c].arm == cases[d].arm
    ensures OneLivePerObligation(Run(split, Fresh(db), steps).db.cases)
  {
    RunKeeps(split, Fresh(db), steps);
  }

  // One outcome per case

  ghost predicate OncePerCase(outcomes: seq<Attribution>) {
    forall i, j :: 0 <= i < j < |outcomes| ==> outcomes[i].caseId != outcomes[j].caseId
  }

  function OutcomesOf(outcomes: seq<Attribution>, c: nat): nat {
    if outcomes == [] then 0
    else OutcomesOf(outcomes[..|outcomes| - 1], c) + if outcomes[|outcomes| - 1].caseId == c then 1 else 0
  }

  lemma {:induction false} NoneRecorded(outcomes: seq<Attribution>, c: nat)
    ensures OutcomesOf(outcomes, c) == 0 <==> !HasOutcome(outcomes, c)
    decreases |outcomes|
  {
    if outcomes != [] {
      var rest, last := outcomes[..|outcomes| - 1], outcomes[|outcomes| - 1];
      NoneRecorded(rest, c);
      if HasOutcome(rest, c) {
        var i :| 0 <= i < |rest| && rest[i].caseId == c;
        assert outcomes[i].caseId == c;
      }
      if HasOutcome(outcomes, c) {
        var i :| 0 <= i < |outcomes| && outcomes[i].caseId == c;
        assert i == |rest| || rest[i].caseId == c;
      }
    }
  }

  /** A recorder that has passed its check inserts an outcome of the case. */
  predicate Lands(w: World, step: Step, c: nat) {
    && step.InsertOutcome? && step.pid in w.recorders && w.recorders[step.pid].checked
    && w.recorders[step.pid].attribution.caseId == c
  }

  function Landings(split: Split, w: World, steps: seq<Step>, c: nat): nat
    decreases |steps|
  {
    if steps == [] then 0
    else (if Lands(w, steps[0], c) then 1 else 0) + Landings(split, Next(split, w, steps[0]), steps[1..], c)
  }

  predicate Touches(step: Step, pid: nat) {
    (step.Attribute? || step.CheckOutcome? || step.InsertOutcome? || step.Leave?) && step.pid == pid
  }

  lemma LandingCounts(split: Split, w: World, step: Step, c: nat)
    ensures OutcomesOf(Next(split, w, step).outcomes, c)
         == OutcomesOf(w.outcomes, c) + if Lands(w, step, c) then 1 else 0
  {
    if step.InsertOutcome? && step.pid in w.recorders && w.recorders[step.pid].checked {
      var last := w.recorders[step.pid].attribution;
      assert (w.outcomes + [last])[..|w.outcomes|] == w.outcomes;
    }
  }

  lemma {:induction false} LandingsAreAllThatCounts(split: Split, w: World, steps: seq<Step>, c: nat)
    ensures OutcomesOf(Run(split, w, steps).outcomes, c) == OutcomesOf(w.outcomes, c) + Landings(split, w, steps, c)
    decreases |steps|
  {
    if steps != [] {
      LandingCounts(split, w, steps[0], c);
      LandingsAreAllThatCounts(split, Next(split, w, steps[0]), steps[1..], c);
    }
  }

  lemma OtherStepsKeepRecorders(split: Split, w: World, step: Step)
    requires !step.CheckOutcome? && !step.InsertOutcome? && !step.Attribute?
    ensures Next(split, w, step).outcomes == w.outcomes
    ensures Next(split, w, step).recorders == if step.Leave? then w.recorders - {step.pid} else w.recorders
  {
  }

  lemma StepLeavesRecorder(split: Split, w: World, step: Step, pid: nat)
    requires pid in w.recorders && !Touches(step, pid)
    ensures var next := Next(split, w, step);
            pid in next.recorders && next.recorders[pid] == w.recorders[pid]
  {
    if !step.CheckOutcome? && !step.InsertOutcome? && !step.Attribute? {
      OtherStepsKeepRecorders(split, w, step);
    }
  }

  lemma {:induction false} RecorderWaits(split: Split, w: World, steps: seq<Step>, pid: nat)
    requires pid in w.recorders && forall i :: 0 <= i < |steps| ==> !Touches(steps[i], pid)
    ensures var end := Run(split, w, steps);
            pid in end.recorders && end.recorders[pid] == w.recorders[pid]
    decreases |steps|
  {
    if steps != [] {
      assert !Touches(steps[0], pid);
      StepLeavesRecorder(split, w, steps[0], pid);
      RecorderWaits(split, Next(split, w, steps[0]), steps[1..], pid);
    }
  }

  lemma CheckPasses(split: Split, w: World, pid: nat)
    requires pid in w.recorders && !HasOutcome(w.outcomes, w.recorders[pid].attribution.caseId)
    ensures var next := Next(split, w, CheckOutcome(pid));
            && next.outcomes == w.outcomes && pid in next.recorders
            && next.recorders[pid] == Recorder(w.recorders[pid].attribution, true)
  {
  }

  /**
   A recorder checks that a case has no outcome and inserts one; anything may happen between.
   The case then has exactly one outcome if and only if no other recorder landed one in
   between, and one more for every recorder that did.
  */
  lemma RecordsOnceExactlyWhenNobodyLandsBetween(split: Split, w: World, pid: nat, between: seq<Step>)
    requires pid in w.recorders && !HasOutcome(w.outcomes, w.recorders[pid].attribution.caseId)
    requires forall i :: 0 <= i < |between| ==> !Touches(between[i], pid)
    ensures var c := w.recorders[pid].attribution.caseId;
            var checked := Next(split, w, CheckOutcome(pid));
            var end := Next(split, Run(split, checked, between), InsertOutcome(pid));
            && OutcomesOf(end.outcomes, c) == 1 + Landings(split, checked, between, c)
            && (HasOutcome(Run(split, checked, between).outcomes, c) <==> Landings(split, checked, between, c) > 0)
  {
    var c := w.recorders[pid].attribution.caseId;
    var checked := Next(split, w, CheckOutcome(pid));
    var waited := Run(split, checked, between);
    CheckPasses(split, w, pid);
    RecorderWaits(split, checked, between, pid);
    LandingsAreAllThatCounts(split, checked, between, c);
    NoneRecorded(w.outcomes, c);
    NoneRecorded(waited.outcomes, c);
    assert Lands(waited, InsertOutcome(pid), c);
    LandingCounts(split, waited, InsertOutcome(pid), c);
  }

  lemma InsertKeepsOnce(split: Split, w: World, pid: nat)
    requires OncePerCase(w.outcomes) && pid in w.recorders && w.recorders[pid].checked
    requires !HasOutcome(w.outcomes, w.recorders[pid].attribution.caseId)
    ensures OncePerCase(Next(split, w, InsertOutcome(pid)).outcomes)
  {
  }

  /** Captures are recorded one at a time. */
  ghost predicate OneAtATime(split: Split, w: World, steps: seq<Step>)
    decreases |steps|
  {
    steps != [] ==>
      && (steps[0].Attribute? ==> w.recorders == map[])
      && OneAtATime(split, Next(split, w, steps[0]), steps[1..])
  }

  ghost predicate SoleRecorder(w: World) {
    && OncePerCase(w.outcomes)
    && (forall p, q :: p in w.recorders && q in w.recorders ==> p == q)
    && (forall p :: p in w.recorders && w.recorders[p].checked ==>
                      !HasOutcome(w.outcomes, w.recorders[p].attribution.caseId))
  }

  lemma OutcomeStepKeepsSole(split: Split, w: World, step: Step)
    requires SoleRecorder(w) && (step.CheckOutcome? || step.InsertOutcome?)
    ensures SoleRecorder(Next(split, w, step))
  {
    var next := Next(split, w, step);
    assert forall p :: p in next.recorders ==> p in w.recorders;
    if step.InsertOutcome? && step.pid in w.recorders && w.recorders[step.pid].checked {
      InsertKeepsOnce(split, w, step.pid);
    }
  }

  lemma StepKeepsSole(split: Split, w: World, step: Step)
    requires SoleRecorder(w) && (step.Attribute? ==> w.recorders == map[])
    ensures SoleRecorder(Next(split, w, step))
  {
    if step.CheckOutcome? || step.InsertOutcome? {
      OutcomeStepKeepsSole(split, w, step);
    } else if !step.Attribute? {
      OtherStepsKeepRecorders(split, w, step);
    }
  }

  /** Then a case has at most one outcome, however often its capture is redelivered. */
  lemma {:induction false} SerialRecordingCountsOnce(split: Split, w: World, steps: seq<Step>)
    requires SoleRecorder(w) && OneAtATime(split, w, steps)
    ensures OncePerCase(Run(split, w, steps).outcomes)
    decreases |steps|
  {
    if steps != [] {
      StepKeepsSole(split, w, steps[0]);
      SerialRecordingCountsOnce(split, Next(split, w, steps[0]), steps[1..]);
    }
  }

  /** A capture of one case, attributed by two recorders that are about to record it. */
  function TwoRecorders(split: Split): World {
    var withCase := Next(split, Fresh(ONE_OPEN), Deliver(FAILED, false));
    Next(split, Next(split, withCase, Attribute(0, 0, None)), Attribute(1, 0, None))
  }

  lemma TwoRecordersState(split: Split)
    ensures var w := TwoRecorders(split);
            && w.outcomes == []
            && w.recorders == map[0 := Recorder(Attribution(0, None), false),
                                  1 := Recorder(Attribution(0, None), false)]
  {
    var withCase := Next(split, Fresh(ONE_OPEN), Deliver(FAILED, false));
    assert |withCase.db.cases| == 1 && withCase.recorders == map[];
  }

  lemma BothInsert(split: Split, w: World, a: Attribution)
    requires w.outcomes == [] && w.recorders == map[0 := Recorder(a, false), 1 := Recorder(a, false)]
    ensures var checked := Next(split, Next(split, w, CheckOutcome(0)), CheckOutcome(1));
            Next(split, Next(split, checked, InsertOutcome(0)), InsertOutcome(1)).outcomes == [a, a]
  {
    var checked := Next(split, Next(split, w, CheckOutcome(0)), CheckOutcome(1));
    assert checked.recorders == map[0 := Recorder(a, true), 1 := Recorder(a, true)];
  }

  /** From an empty case table: if both check before either inserts, the capture is counted twice. */
  lemma TwoRecordersCountTwice(split: Split)
    ensures var checked := Next(split, Next(split, TwoRecorders(split), CheckOutcome(0)), CheckOutcome(1));
            var end := Next(split, Next(split, checked, InsertOutcome(0)), InsertOutcome(1));
            OutcomesOf(end.outcomes, 0) == 2
  {
    TwoRecordersState(split);
    BothInsert(split, TwoRecorders(split), Attribution(0, None));
    assert [Attribution(0, None), Attribution(0, None)][..1] == [Attribution(0, None)];
  }

  // A reviewer's decision

  /** Every escalated case carries the decision that escalated it. */
  ghost predicate Proposed(w: World) {
    forall c :: AwaitsReview(w.db.cases, c) ==> c in w.proposals
  }

  lemma WriteKeepsProposed(w: World, c: nat, st: CaseState)
    requires Proposed(w) && (st.Escalated? ==> c in w.proposals)
    ensures Proposed(WriteState(w, c, st))
  {
    forall d | AwaitsReview(WriteState(w, c, st).db.cases, d) ensures d in w.proposals {
      assert AwaitsReview(w.db.cases, d) || d == c;
    }
  }

  lemma DeliverKeepsProposed(split: Split, w: World, e: Event, seen: bool)
    requires Proposed(w)
    ensures Proposed(Next(split, w, Deliver(e, seen)))
  {
    var next := Next(split, w, Deliver(e, seen));
    forall c | AwaitsReview(next.db.cases, c) ensures c in w.proposals {
      assert AwaitsReview(w.db.cases, c);
    }
  }

  lemma ActKeepsProposed(split: Split, w: World, step: Step)
    requires Proposed(w) && step.Act?
    ensures Proposed(Next(split, w, step))
  {
    var decided := if step.verdict.Hold? then w.(proposals := w.proposals + {step.c}) else w;
    assert Proposed(decided);
    WriteKeepsProposed(decided, step.c, HeldOut);
    WriteKeepsProposed(decided, step.c, Open);
    if step.verdict.Hold? {
      WriteKeepsProposed(decided, step.c, Escalated);
    }
  }

  lemma StepKeepsProposed(split: Split, w: World, step: Step)
    requires Proposed(w)
    ensures Proposed(Next(split, w, step))
  {
    match step
    case Deliver(e, seen) => DeliverKeepsProposed(split, w, e, seen);
    case Act(_, _, _, _) => ActKeepsProposed(split, w, step);
    case StopCase(_, c) => WriteKeepsProposed(w, c, Stopped);
    case AwaitOutcome(_, c) => WriteKeepsProposed(w, c, AwaitingOutcome);
    case AwaitApproved(_, c) => WriteKeepsProposed(w, c, AwaitingOutcome);
    case Reject(pid) =>
      if pid in w.reviewers {
        WriteKeepsProposed(w, w.reviewers[pid], Stopped);
      }
    case _ =>
      assert Next(split, w, step).db == w.db && Next(split, w, step).proposals == w.proposals;
  }

  /** So in no run is an approval refused for want of a proposal. */
  lemma {:induction false} EscalationsHaveProposals(split: Split, w: World, steps: seq<Step>)
    requires Proposed(w)
    ensures Proposed(Run(split, w, steps))
    decreases |steps|
  {
    if steps != [] {
      StepKeepsProposed(split, w, steps[0]);
      EscalationsHaveProposals(split, Next(split, w, steps[0]), steps[1..]);
    }
  }

  datatype Disposition = Approved(dispatched: bool) | Rejected | ApprovalError

  class Desk {
    const split: Split
    var world: World

    constructor (split: Split, world: World)
      ensures this.split == split && this.world == world
    {
      this.split, this.world := split, world;
    }

    method Perform(step: Step)
      requires Inv(split, world)
      modifies this
      ensures Inv(split, world) && world == Next(split, old(world), step)
    {
      StepKeeps(split, world, step);
      world := Next(split, world, step);
    }

    /** Sends an approved proposal; the case waits for its outcome only if something was sent. */
    method Send(pid: nat, c: nat, recheck: PolicyVerdict, row: Row)
      requires Inv(split, world) && pid in world.reviewers && world.reviewers[pid] == c && !recheck.Block?
      requires c < |world.db.cases| && world.db.cases[c].state.Escalated?
      modifies this
      ensures Inv(split, world)
      ensures world.actions == old(world).actions + (if row.None? then [] else [Action(c, row.value)])
      ensures world.db.cases == if row == Some(true) then Moved(old(world).db.cases, c, AwaitingOutcome)
                                else old(world).db.cases
    {
      Perform(Approve(pid, recheck, row));
      if row == Some(true) {
        assert world.actions[|world.actions| - 1] == Action(c, true);
        Perform(AwaitApproved(pid, c));
      }
    }

    /**
     Only a named person can decide, only an escalated case with a proposal, and only what is
     still permitted.
    */
    method Decide(pid: nat, c: nat, approve: bool, named: bool, recheck: PolicyVerdict, row: Row)
        returns (d: Disposition)
      requires Inv(split, world)
      modifies this
      ensures Inv(split, world)
      ensures d.ApprovalError? <==>
                || !named || !AwaitsReview(old(world).db.cases, c) || c !in old(world).proposals
                || (approve && recheck.Block?)
      ensures d.ApprovalError? ==> world.db == old(world).db && world.actions == old(world).actions
      ensures d.Rejected? ==>
                && !approve && world.actions == old(world).actions
                && world.db.cases == Moved(old(world).db.cases, c, Stopped)
      ensures d.Approved? ==>
                && approve && d.dispatched == (row == Some(true)) && InTreatment(old(world).db.cases, c)
                && world.actions == old(world).actions + (if row.None? then [] else [Action(c, row.value)])
                && world.db.cases == (if d.dispatched then Moved(old(world).db.cases, c, AwaitingOutcome)
                                      else old(world).db.cases)
    {
      if !named {
        return ApprovalError;
      }
      Perform(Review(pid, c));
      if !AwaitsReview(world.db.cases, c) || c !in world.proposals {
        return ApprovalError;
      }
      assert Untreated(world.db.cases[c]);
      if !approve {
        Perform(Reject(pid));
        return Rejected;
      }
      if recheck.Block? {
        return ApprovalError;
      }
      Send(pid, c, recheck, row);
      return Approved(row == Some(true));
    }
  }
}
