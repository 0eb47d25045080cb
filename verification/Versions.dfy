/** The approval history of an asset, with every service call one atomic step. */
module Versions {
  import opened Domain
  import opened StoreModel
  import opened History
  import opened ServiceRules

  predicate SubmitRow(row: Audit, id: Id) {
    row.kind == ApprovalEntity && row.id == id && row.action == SubmitApproval
  }

  predicate Sibling(approvals: map<Id, Approval>, x: Id, y: Id)
    requires x in approvals && y in approvals
  {
    approvals[x].asset == approvals[y].asset
  }

  ghost predicate InRange(approvals: map<Id, Approval>) {
    forall x :: x in approvals ==> 1 <= approvals[x].version <= |RequestsOf(approvals, approvals[x].asset)|
  }

  ghost predicate NewestActive(approvals: map<Id, Approval>) {
    forall x :: x in approvals && Active(approvals[x].status) ==>
      approvals[x].version == |RequestsOf(approvals, approvals[x].asset)|
  }

  predicate SameNumber(approvals: map<Id, Approval>, x: Id, y: Id)
    requires x in approvals && y in approvals
  {
    Sibling(approvals, x, y) && approvals[x].version == approvals[y].version
  }

  ghost predicate NoRepeats(approvals: map<Id, Approval>) {
    forall x, y :: x in approvals && y in approvals && SameNumber(approvals, x, y) ==> x == y
  }

  /** Versions start at 1, do not repeat, leave no gap, and only the newest request can be active. */
  ghost predicate Numbered(approvals: map<Id, Approval>) {
    InRange(approvals) && NewestActive(approvals) && NoRepeats(approvals)
  }

  predicate SubmitsBoth(approvals: map<Id, Approval>, a: Audit, b: Audit) {
    SubmitRow(a, a.id) && SubmitRow(b, b.id) && a.id in approvals && b.id in approvals && Sibling(approvals, a.id, b.id)
  }

  predicate HasSubmit(log: seq<Audit>, id: Id) {
    exists i :: 0 <= i < |log| && SubmitRow(log[i], id)
  }

  /** Every request was filed, and the requests of one asset were filed in the order of their versions. */
  ghost predicate Filed(approvals: map<Id, Approval>, log: seq<Audit>) {
    && (forall x :: x in approvals ==> HasSubmit(log, x))
    && (forall i :: 0 <= i < |log| && SubmitRow(log[i], log[i].id) ==> log[i].id in approvals)
    && (forall i, j :: 0 <= i < j < |log| && SubmitsBoth(approvals, log[i], log[j]) ==>
          approvals[log[i].id].version < approvals[log[j].id].version)
  }

  ghost predicate Ordered(s: Store) {
    Numbered(s.approvals) && Filed(s.approvals, s.audit)
  }

  // ---- counting ----

  ghost predicate Injective(approvals: map<Id, Approval>, ids: set<Id>, k: nat) {
    && ids <= approvals.Keys
    && (forall x :: x in ids ==> 1 <= approvals[x].version <= k)
    && (forall x, y :: x in ids && y in ids && approvals[x].version == approvals[y].version ==> x == y)
  }

  lemma {:induction false} AtMost(approvals: map<Id, Approval>, ids: set<Id>, k: nat)
    requires Injective(approvals, ids, k)
    ensures |ids| <= k
    decreases k
  {
    if x :| x in ids && approvals[x].version == k {
      AtMost(approvals, ids - {x}, k - 1);
    } else if x :| x in ids {
      AtMost(approvals, ids, k - 1);
    }
  }

  lemma {:induction false} EachTaken(approvals: map<Id, Approval>, ids: set<Id>, k: nat, v: nat) returns (x: Id)
    requires Injective(approvals, ids, k) && |ids| == k && 1 <= v <= k
    ensures x in ids && approvals[x].version == v
    decreases k
  {
    if forall y :: y in ids ==> approvals[y].version != k {
      AtMost(approvals, ids, k - 1);
    }
    x :| x in ids && approvals[x].version == k;
    if v < k {
      x := EachTaken(approvals, ids - {x}, k - 1, v);
    }
  }

  lemma RequestsInjective(s: Store, asset: Id)
    requires Numbered(s.approvals)
    ensures Injective(s.approvals, ApprovalsOf(s, asset), |ApprovalsOf(s, asset)|)
  {
    var ids := ApprovalsOf(s, asset);
    forall x, y | x in ids && y in ids && s.approvals[x].version == s.approvals[y].version ensures x == y {
      assert SameNumber(s.approvals, x, y);
    }
  }

  /** The approval history of an asset: its versions are exactly 1 to the number of its requests, each once. */
  lemma VersionsAreExact(s: Store, asset: Id, v: nat)
    requires Numbered(s.approvals)
    ensures 1 <= v <= |ApprovalsOf(s, asset)| <==> exists x :: x in ApprovalsOf(s, asset) && s.approvals[x].version == v
    ensures forall x, y :: x in ApprovalsOf(s, asset) && y in ApprovalsOf(s, asset) && x != y ==>
              s.approvals[x].version != s.approvals[y].version
  {
    RequestsInjective(s, asset);
    if 1 <= v <= |ApprovalsOf(s, asset)| {
      var x := EachTaken(s.approvals, ApprovalsOf(s, asset), |ApprovalsOf(s, asset)|, v);
    }
  }

  lemma NextIsOneMore(s: Store, asset: Id, version: nat)
    requires Numbered(s.approvals) && IsNextVersion(s, asset, version)
    ensures version == |RequestsOf(s.approvals, asset)| + 1
  {
    var ids := ApprovalsOf(s, asset);
    RequestsInjective(s, asset);
    if version != 1 {
      var x :| x in ids && s.approvals[x].version == version - 1;
    }
    if |ids| > 0 {
      var x := EachTaken(s.approvals, ids, |ids|, |ids|);
    }
  }

  // ---- what each call does to the history ----

  predicate NotRevived(a: Approval, b: Approval) {
    b.asset == a.asset && b.version == a.version && (Active(b.status) ==> Active(a.status))
  }

  /** No new request, and none becomes active again. */
  ghost predicate NoneRevived(approvals: map<Id, Approval>, after: map<Id, Approval>) {
    after.Keys == approvals.Keys && forall x :: x in approvals ==> NotRevived(approvals[x], after[x])
  }

  ghost predicate NoneFiled(log: seq<Audit>, log': seq<Audit>) {
    log <= log' && forall i :: |log| <= i < |log'| ==> log'[i].action != SubmitApproval
  }

  ghost predicate NothingFiled(s: Store, s': Store) {
    NoneRevived(s.approvals, s'.approvals) && NoneFiled(s.audit, s'.audit)
  }

  lemma OneNotRevived(approvals: map<Id, Approval>, id: Id, a: Approval)
    requires id in approvals && NotRevived(approvals[id], a)
    ensures NoneRevived(approvals, approvals[id := a])
  {}

  lemma NumberedStays(approvals: map<Id, Approval>, after: map<Id, Approval>)
    requires Numbered(approvals) && NoneRevived(approvals, after)
    ensures Numbered(after)
  {
    forall asset ensures RequestsOf(after, asset) == RequestsOf(approvals, asset) {}
    forall x, y | x in after && y in after && SameNumber(after, x, y) ensures x == y {
      assert SameNumber(approvals, x, y);
    }
  }

  lemma FiledStays(approvals: map<Id, Approval>, after: map<Id, Approval>, log: seq<Audit>, log': seq<Audit>)
    requires Filed(approvals, log) && NoneRevived(approvals, after) && NoneFiled(log, log')
    ensures Filed(after, log')
  {
    forall x | x in after ensures HasSubmit(log', x) {
      assert HasSubmit(log, x);
      var i :| 0 <= i < |log| && SubmitRow(log[i], x);
      assert SubmitRow(log'[i], x);
    }
    forall i, j | 0 <= i < j < |log'| && SubmitsBoth(after, log'[i], log'[j])
      ensures after[log'[i].id].version < after[log'[j].id].version
    {
      assert SubmitsBoth(approvals, log[i], log[j]);
    }
  }

  lemma NothingFiledKeeps(s: Store, s': Store)
    requires Ordered(s) && NothingFiled(s, s')
    ensures Ordered(s')
  {
    NumberedStays(s.approvals, s'.approvals);
    FiledStays(s.approvals, s'.approvals, s.audit, s'.audit);
  }

  lemma FiledNow(approvals: map<Id, Approval>, log: seq<Audit>, id: Id, a: Approval, row: Audit)
    requires Filed(approvals, log) && id !in approvals && SubmitRow(row, id)
    requires forall x :: x in approvals && approvals[x].asset == a.asset ==> approvals[x].version < a.version
    ensures Filed(approvals[id := a], log + [row])
  {
    var after := approvals[id := a];
    var log' := log + [row];
    forall x | x in after ensures HasSubmit(log', x) {
      if x == id {
        assert SubmitRow(log'[|log|], x);
      } else {
        assert HasSubmit(log, x);
        var i :| 0 <= i < |log| && SubmitRow(log[i], x);
        assert SubmitRow(log'[i], x);
      }
    }
    forall i, j | 0 <= i < j < |log'| && SubmitsBoth(after, log'[i], log'[j])
      ensures after[log'[i].id].version < after[log'[j].id].version
    {
      if j < |log| {
        assert SubmitsBoth(approvals, log[i], log[j]);
      }
    }
  }

  lemma RangeNow(approvals: map<Id, Approval>, id: Id, a: Approval, asset: Id)
    requires id !in approvals
    ensures RequestsOf(approvals[id := a], asset) == RequestsOf(approvals, asset) + (if asset == a.asset then {id} else {})
    ensures |RequestsOf(approvals[id := a], asset)| == |RequestsOf(approvals, asset)| + (if asset == a.asset then 1 else 0)
  {
    assert RequestsOf(approvals[id := a], asset) == RequestsOf(approvals, asset) + (if asset == a.asset then {id} else {});
  }

  lemma NumberedNow(approvals: map<Id, Approval>, id: Id, a: Approval)
    requires Numbered(approvals) && id !in approvals
    requires a.version == |RequestsOf(approvals, a.asset)| + 1
    requires forall x :: x in approvals && approvals[x].asset == a.asset ==> !Active(approvals[x].status)
    ensures Numbered(approvals[id := a])
  {
    var after := approvals[id := a];
    forall x | x in after
      ensures 1 <= after[x].version <= |RequestsOf(after, after[x].asset)|
      ensures Active(after[x].status) ==> after[x].version == |RequestsOf(after, after[x].asset)|
    {
      RangeNow(approvals, id, a, after[x].asset);
    }
    forall x, y | x in after && y in after && SameNumber(after, x, y) ensures x == y {
      if x != id && y != id {
        assert SameNumber(approvals, x, y);
      }
    }
  }

  lemma SubmitKeepsOrdered(s: Store, asset: Id, standard: string, route: string, operator: string, id: Id, version: nat)
    requires Ordered(s) && id !in s.approvals && IsNextVersion(s, asset, version)
    ensures Ordered(Submit(s, asset, standard, route, operator, id, version).store)
  {
    var s' := Submit(s, asset, standard, route, operator, id, version).store;
    if s' != s {
      NextIsOneMore(s, asset, version);
      var a := s'.approvals[id];
      forall x | x in s.approvals && s.approvals[x].asset == asset ensures !Active(s.approvals[x].status) {
        assert !ActiveFor(s, asset, x);
      }
      assert forall x :: x in s.approvals && s.approvals[x].asset == asset ==> x in ApprovalsOf(s, asset);
      NumberedNow(s.approvals, id, a);
      FiledNow(s.approvals, s.audit, id, a, s'.audit[|s.audit|]);
      assert s'.approvals == s.approvals[id := a] && s'.audit == s.audit + [s'.audit[|s.audit|]];
    }
  }

  lemma ReviewFilesNothing(s: Store, id: Id, reviewer: string, approve: bool, note: string)
    ensures NothingFiled(s, Review(s, id, reviewer, approve, note).store)
  {
    var s' := Review(s, id, reviewer, approve, note).store;
    if s' != s {
      OneNotRevived(s.approvals, id, s'.approvals[id]);
      assert s'.audit == s.audit + [s'.audit[|s.audit|]];
    }
  }

  lemma WithdrawFilesNothing(s: Store, id: Id, operator: string)
    ensures NothingFiled(s, Withdraw(s, id, operator).store)
  {
    var s' := Withdraw(s, id, operator).store;
    if s' != s {
      OneNotRevived(s.approvals, id, s'.approvals[id]);
      assert s'.audit == s.audit + [s'.audit[|s.audit|]];
    }
  }

  lemma {:induction false} AddDisksFilesNothing(
    s: Store, asset: Id, operator: string, inputs: seq<DiskInput>, ids: seq<Id>, n: nat)
    requires n <= |inputs| && n <= |ids|
    ensures var s' := AddDisks(s, asset, operator, inputs, ids, n); s' == s.(disks := s'.disks)
    decreases n
  {
    if n > 0 {
      AddDisksFilesNothing(s, asset, operator, inputs, ids, n - 1);
    }
  }

  lemma NothingFiledTransitive(a: Store, b: Store, c: Store)
    requires NothingFiled(a, b) && NothingFiled(b, c)
    ensures NothingFiled(a, c)
  {}

  lemma LoggedFilesNothing(s: Store, s': Store, row: Audit)
    requires s'.approvals == s.approvals && s'.audit == s.audit + [row] && row.action != SubmitApproval
    ensures NothingFiled(s, s')
  {}

  lemma TransitionFilesNothing(s: Store, asset: Id, to: AssetStatus, actor: string, action: Action)
    requires action != SubmitApproval
    ensures NothingFiled(s, TransitionAsset(s, asset, to, actor, action).store)
  {
    var reply := TransitionAsset(s, asset, to, actor, action);
    if reply.out == Ok {
      LoggedFilesNothing(s, reply.store, Audit(actor, action, AssetEntity, asset));
    }
  }

  lemma PullFilesNothing(s: Store, asset: Id, operator: string, inputs: seq<DiskInput>, ids: seq<Id>, found: Option<Id>)
    requires |ids| == |inputs|
    ensures NothingFiled(s, Pull(s, asset, operator, inputs, ids, found).store)
  {
    AddDisksFilesNothing(s, asset, operator, inputs, ids, Accepted(inputs));
    var mid := AddDisks(s, asset, operator, inputs, ids, Accepted(inputs));
    assert NothingFiled(s, mid);
    TransitionFilesNothing(mid, asset, AssetDiskPulled, operator, PullDisksAction);
  }

  lemma OrderFilesNothing(s: Store, disk: Id, standard: string, operator: string, id: Id, now: nat, found: Option<Id>)
    ensures NothingFiled(s, Order(s, disk, standard, operator, id, now, found).store)
  {
    if Order(s, disk, standard, operator, id, now, found).store != s {
      var job := Job(disk, STANDARDS[standard].code, JobPending, |JobsOf(s, disk)|, 0, 0, 0, operator, "", 0, now);
      var created := CreateJob(s, id, job, now).store;
      LoggedFilesNothing(s, created, Audit(operator, CreateJobAction, JobEntity, id));
      TransitionFilesNothing(created, s.disks[disk].asset, AssetErasing, operator, StartErasing);
      NothingFiledTransitive(s, created, TransitionAsset(created, s.disks[disk].asset, AssetErasing, operator, StartErasing).store);
    }
  }

  lemma ScrapFilesNothing(s: Store, disk: Id, operator: string)
    ensures NothingFiled(s, Scrap(s, disk, operator).store)
  {
    if Scrap(s, disk, operator).store != s {
      var marked := UpdateDiskStatus(s, disk, DiskScrapped, operator).store;
      var ended := Terminate(marked, OpenJobs(marked, disk));
      assert NothingFiled(s, marked);
      assert ended.approvals == marked.approvals && ended.audit == marked.audit;
      TransitionFilesNothing(ended, s.disks[disk].asset, AssetScrapped, operator, ScrapAsset);
      NothingFiledTransitive(s, ended, TransitionAsset(ended, s.disks[disk].asset, AssetScrapped, operator, ScrapAsset).store);
    }
  }

  lemma ConfirmFilesNothing(s: Store, asset: Id, route: string, receiver: string, operator: string, found: Option<Id>)
    ensures NothingFiled(s, Confirm(s, asset, route, receiver, operator, found).store)
  {
    var s' := Confirm(s, asset, route, receiver, operator, found).store;
    if s' != s {
      LoggedFilesNothing(s, s', s'.audit[|s.audit|]);
    }
  }

  lemma RegisterFilesNothing(s: Store, tag: string, owner: string, operator: string, id: Id)
    ensures NothingFiled(s, Register(s, tag, owner, operator, id).store)
  {
    var s' := Register(s, tag, owner, operator, id).store;
    assert NothingFiled(s, s');
  }

  lemma CallKeepsOrdered(s: Store, call: Call)
    requires Ordered(s) && Permitted(s, call)
    ensures Ordered(Perform(s, call))
  {
    match call
    case CallSubmit(asset, standard, route, operator, id, version) =>
      SubmitKeepsOrdered(s, asset, standard, route, operator, id, version);
    case CallRegister(tag, owner, operator, id) =>
      RegisterFilesNothing(s, tag, owner, operator, id);
      NothingFiledKeeps(s, Register(s, tag, owner, operator, id).store);
    case CallReview(id, reviewer, approve, note) =>
      ReviewFilesNothing(s, id, reviewer, approve, note);
      NothingFiledKeeps(s, Review(s, id, reviewer, approve, note).store);
    case CallWithdraw(id, operator) =>
      WithdrawFilesNothing(s, id, operator);
      NothingFiledKeeps(s, Withdraw(s, id, operator).store);
    case CallPull(asset, operator, inputs, ids, found) =>
      PullFilesNothing(s, asset, operator, inputs, ids, found);
      NothingFiledKeeps(s, Pull(s, asset, operator, inputs, ids, found).store);
    case CallOrder(disk, standard, operator, id, now, found) =>
      OrderFilesNothing(s, disk, standard, operator, id, now, found);
      NothingFiledKeeps(s, Order(s, disk, standard, operator, id, now, found).store);
    case CallScrap(disk, operator) =>
      ScrapFilesNothing(s, disk, operator);
      NothingFiledKeeps(s, Scrap(s, disk, operator).store);
    case CallConfirm(asset, route, receiver, operator, found) =>
      ConfirmFilesNothing(s, asset, route, receiver, operator, found);
      NothingFiledKeeps(s, Confirm(s, asset, route, receiver, operator, found).store);
  }
}
