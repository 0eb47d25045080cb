/**
 * What a verdict means from then on: a request that was refused or withdrawn never opens the gate again, and one that
 * counts as approved was approved by somebody's review.
 */
module Verdicts {
  import opened Domain
  import opened StoreModel
  import opened History
  import opened ServiceRules
  import opened RunnerModel
  import opened Gate
  import opened CallEffects
  import opened Finality
  import opened Upkeep
  import opened SystemModel

  // ---- only service calls touch requests ----

  lemma MoveLeavesRequests(s: Store, r: Runner, move: Move, s': Store, pc: Pc)
    requires Final(s) && Stands(s, r) && Step(s, r, move, s', pc)
    ensures s'.approvals == s.approvals
  {
    MoveKeepsFinal(s, r, move, s', pc);
  }

  lemma WorkLeavesRequests(sys: System, event: Event, sys': System)
    requires Inv(sys) && Next(sys, event, sys') && !event.ServiceCall?
    ensures sys'.store.approvals == sys.store.approvals
  {
    if event.MoveRun? {
      assert Stands(sys.store, sys.runs[event.run]);
      MoveLeavesRequests(sys.store, sys.runs[event.run], event.move, sys'.store, event.pc);
    }
  }

  lemma Called(sys: System, event: Event, sys': System)
    requires Inv(sys) && Next(sys, event, sys') && event.ServiceCall?
    ensures Permitted(sys.store, event.call) && sys'.store == Perform(sys.store, event.call)
    ensures DisksKnown(sys.store.disks, sys.store.assets)
  {}

  predicate OnRequests(call: Call) {
    call.CallSubmit? || call.CallReview? || call.CallWithdraw?
  }

  lemma PullLeavesRequests(s: Store, asset: Id, operator: string, inputs: seq<DiskInput>, ids: seq<Id>, found: Option<Id>)
    requires |ids| == |inputs| && FreshIds(s, ids)
    ensures Pull(s, asset, operator, inputs, ids, found).store.approvals == s.approvals
  {
    if asset in s.assets {
      AddedDisks(s, asset, operator, inputs, ids, Accepted(inputs));
    }
  }

  lemma OrderLeavesRequests(s: Store, disk: Id, standard: string, operator: string, j: Id, now: nat, found: Option<Id>)
    ensures Order(s, disk, standard, operator, j, now, found).store.approvals == s.approvals
  {}

  lemma ScrapLeavesRequests(s: Store, disk: Id, operator: string)
    requires DisksKnown(s.disks, s.assets)
    ensures Scrap(s, disk, operator).store.approvals == s.approvals
  {
    ScrapAccepted(s, disk, operator);
    if Scrap(s, disk, operator).out == Ok {
      ScrapEffect(s, disk, operator);
    }
  }

  lemma CallLeavesRequests(s: Store, call: Call)
    requires DisksKnown(s.disks, s.assets) && Permitted(s, call) && !OnRequests(call)
    ensures Perform(s, call).approvals == s.approvals
  {
    match call
    case CallRegister(tag, owner, operator, id) => RegisterEffect(s, tag, owner, operator, id);
    case CallPull(asset, operator, inputs, ids, found) => PullLeavesRequests(s, asset, operator, inputs, ids, found);
    case CallOrder(disk, standard, operator, j, now, found) => OrderLeavesRequests(s, disk, standard, operator, j, now, found);
    case CallScrap(disk, operator) => ScrapLeavesRequests(s, disk, operator);
    case CallConfirm(asset, route, receiver, operator, found) => ConfirmEffect(s, asset, route, receiver, operator, found);
  }

  // ---- refused and withdrawn requests ----

  predicate Closed(a: Approval) {
    a.status == ApprovalRejected || a.status == ApprovalWithdrawn
  }

  lemma CallKeepsClosed(s: Store, call: Call, id: Id)
    requires DisksKnown(s.disks, s.assets) && Permitted(s, call) && id in s.approvals && Closed(s.approvals[id])
    ensures KeepsRequest(s, Perform(s, call), id)
  {
    if OnRequests(call) {
      match call
      case CallReview(x, reviewer, approve, note) => ReviewEffect(s, x, reviewer, approve, note);
      case CallWithdraw(x, operator) => WithdrawEffect(s, x, operator);
      case CallSubmit(asset, standard, route, operator, x, version) =>
        SubmitFrozen(s, asset, standard, route, operator, x, version, id);
    } else {
      CallLeavesRequests(s, call);
    }
  }

  lemma StepKeepsClosed(sys: System, event: Event, sys': System, id: Id)
    requires Inv(sys) && Next(sys, event, sys') && id in sys.store.approvals && Closed(sys.store.approvals[id])
    ensures KeepsRequest(sys.store, sys'.store, id)
  {
    if event.ServiceCall? {
      Called(sys, event, sys');
      CallKeepsClosed(sys.store, event.call, id);
    } else {
      WorkLeavesRequests(sys, event, sys');
    }
  }

  lemma {:induction false} ClosedForever(t: Trace, m: nat, n: nat, id: Id)
    requires t.Valid() && m <= n < |t.states| && id in t.states[m].store.approvals && Closed(t.states[m].store.approvals[id])
    ensures id in t.states[n].store.approvals && t.states[n].store.approvals[id] == t.states[m].store.approvals[id]
    decreases n
  {
    if m < n {
      ClosedForever(t, m, n - 1, id);
      EveryStateKept(t, n - 1);
      assert t.StepAt(n - 1);
      StepKeepsClosed(t.states[n - 1], t.events[n - 1], t.states[n], id);
    }
  }

  /** The request is for nobody the one that opens the gate. */
  ghost predicate NeverPasses(s: Store, id: Id) {
    forall asset, found :: FoundActive(s, asset, found) ==> found != Some(id)
  }

  /**
   * A refusal is final. After a review that rejects a pending request, with a note and by somebody other than the
   * applicant, the request is rejected in every later state with that reviewer and that note, and no lookup for a
   * pull, an order or a disposal ever finds it.
   */
  lemma RejectionIsFinal(t: Trace, n: nat, m: nat, id: Id, reviewer: string, note: string)
    requires t.Valid() && n < |t.events| && t.events[n] == ServiceCall(CallReview(id, reviewer, false, note))
    requires var s := t.states[n].store;
             && id in s.approvals && s.approvals[id].status == ApprovalPending
             && reviewer != "" && reviewer != s.approvals[id].applicant && note != ""
    requires n < m < |t.states|
    ensures var s := t.states[m].store;
            && id in s.approvals && NeverPasses(s, id)
            && s.approvals[id] == t.states[n].store.approvals[id].(status := ApprovalRejected, reviewer := reviewer, note := note)
  {
    assert t.StepAt(n);
    ReviewEffect(t.states[n].store, id, reviewer, false, note);
    ClosedForever(t, n + 1, m, id);
  }

  /** So is a withdrawal. */
  lemma WithdrawalIsFinal(t: Trace, n: nat, m: nat, id: Id, operator: string)
    requires t.Valid() && n < |t.events| && t.events[n] == ServiceCall(CallWithdraw(id, operator))
    requires Withdraw(t.states[n].store, id, operator).out == Ok && n < m < |t.states|
    ensures id in t.states[m].store.approvals && t.states[m].store.approvals[id].status == ApprovalWithdrawn
    ensures NeverPasses(t.states[m].store, id)
  {
    assert t.StepAt(n);
    WithdrawEffect(t.states[n].store, id, operator);
    ClosedForever(t, n + 1, m, id);
  }

  // ---- approved requests ----

  predicate Approves(event: Event, id: Id, a: Approval) {
    event == ServiceCall(CallReview(id, a.reviewer, true, a.note))
  }

  /** The approved request `id` was approved before, or is by this call. */
  ghost predicate ApprovedSince(s: Store, event: Event, s': Store, id: Id)
    requires id in s'.approvals
  {
    && id in s.approvals
    && (s.approvals[id] == s'.approvals[id]
        || (&& Approves(event, id, s'.approvals[id]) && s.approvals[id].status == ApprovalPending
            && s'.approvals[id].applicant == s.approvals[id].applicant != s'.approvals[id].reviewer))
  }

  lemma ApprovedCall(s: Store, call: Call, id: Id)
    requires DisksKnown(s.disks, s.assets) && Permitted(s, call)
    requires id in Perform(s, call).approvals && Perform(s, call).approvals[id].status == ApprovalApproved
    ensures ApprovedSince(s, ServiceCall(call), Perform(s, call), id)
  {
    if OnRequests(call) {
      match call
      case CallReview(x, reviewer, approve, note) => ReviewEffect(s, x, reviewer, approve, note);
      case CallWithdraw(x, operator) => WithdrawEffect(s, x, operator);
      case CallSubmit(asset, standard, route, operator, x, version) =>
        SubmitEffect(s, asset, standard, route, operator, x, version);
    } else {
      CallLeavesRequests(s, call);
    }
  }

  lemma ApprovedStep(sys: System, event: Event, sys': System, id: Id)
    requires Inv(sys) && Next(sys, event, sys') && id in sys'.store.approvals && sys'.store.approvals[id].status == ApprovalApproved
    ensures ApprovedSince(sys.store, event, sys'.store, id)
  {
    if event.ServiceCall? {
      Called(sys, event, sys');
      ApprovedCall(sys.store, event.call, id);
    } else {
      WorkLeavesRequests(sys, event, sys');
    }
  }

  /** Behind every approved request stands a review that said so, of the request while it was waiting, by the reviewer on record. */
  lemma {:induction false} ApprovedByReview(t: Trace, n: nat, id: Id) returns (k: nat)
    requires t.Valid() && n < |t.states|
    requires id in t.states[n].store.approvals && t.states[n].store.approvals[id].status == ApprovalApproved
    ensures k < n && Approves(t.events[k], id, t.states[n].store.approvals[id])
    ensures id in t.states[k].store.approvals && t.states[k].store.approvals[id].status == ApprovalPending
    ensures t.states[k].store.approvals[id].applicant == t.states[n].store.approvals[id].applicant
            != t.states[n].store.approvals[id].reviewer
    decreases n
  {
    if n > 0 {
      ApprovedAt(t, n - 1, id);
      if t.states[n - 1].store.approvals[id] == t.states[n].store.approvals[id] {
        k := ApprovedByReview(t, n - 1, id);
      } else {
        k := n - 1;
      }
    }
  }

  lemma ApprovedAt(t: Trace, n: nat, id: Id)
    requires t.Valid() && n < |t.events|
    requires id in t.states[n + 1].store.approvals && t.states[n + 1].store.approvals[id].status == ApprovalApproved
    ensures ApprovedSince(t.states[n].store, t.events[n], t.states[n + 1].store, id)
  {
    EveryStateKept(t, n);
    assert t.StepAt(n);
    ApprovedStep(t.states[n], t.events[n], t.states[n + 1], id);
  }

  // ---- what requests ask for ----

  /** Every request names a built-in standard and a known route. */
  ghost predicate Proper(approvals: map<Id, Approval>) {
    forall id :: id in approvals ==> approvals[id].standard in STANDARDS && IsRoute(approvals[id].route)
  }

  lemma CallKeepsProper(s: Store, call: Call)
    requires DisksKnown(s.disks, s.assets) && Proper(s.approvals) && Permitted(s, call)
    ensures Proper(Perform(s, call).approvals)
  {
    if OnRequests(call) {
      match call
      case CallReview(x, reviewer, approve, note) => ReviewEffect(s, x, reviewer, approve, note);
      case CallWithdraw(x, operator) => WithdrawEffect(s, x, operator);
      case CallSubmit(asset, standard, route, operator, x, version) =>
        SubmitEffect(s, asset, standard, route, operator, x, version);
    } else {
      CallLeavesRequests(s, call);
    }
  }

  lemma StepKeepsProper(sys: System, event: Event, sys': System)
    requires Inv(sys) && Proper(sys.store.approvals) && Next(sys, event, sys')
    ensures Proper(sys'.store.approvals)
  {
    if event.ServiceCall? {
      Called(sys, event, sys');
      CallKeepsProper(sys.store, event.call);
    } else {
      WorkLeavesRequests(sys, event, sys');
    }
  }

  lemma {:induction false} RequestsAreProper(t: Trace, n: nat)
    requires t.Valid() && n < |t.states|
    ensures Proper(t.states[n].store.approvals)
  {
    if n > 0 {
      RequestsAreProper(t, n - 1);
      ProperNext(t, n - 1);
    }
  }

  lemma ProperNext(t: Trace, n: nat)
    requires t.Valid() && n < |t.events| && Proper(t.states[n].store.approvals)
    ensures Proper(t.states[n + 1].store.approvals)
  {
    EveryStateKept(t, n);
    assert t.StepAt(n);
    StepKeepsProper(t.states[n], t.events[n], t.states[n + 1]);
  }
}
