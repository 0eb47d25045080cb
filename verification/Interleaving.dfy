/**
 * Service calls that are not one step: other store operations come between a read of such a call and its last write.
 * For the two promises that this can break, exactly when the write keeps them.
 */
module Interleaving {
  import opened Domain
  import opened StoreModel
  import opened History
  import opened ServiceRules
  import opened Gate
  import opened Versions

  // ---- the version of a submission ----

  /** Filing a request keeps the approval history if and only if its version is one more than the number filed. */
  lemma FilingKeepsOrder(s: Store, id: Id, a: Approval)
    requires Ordered(s) && id !in s.approvals && CreateApproval(s, id, a).out == Ok
    ensures Ordered(CreateApproval(s, id, a).store) <==> a.version == |ApprovalsOf(s, a.asset)| + 1
  {
    if a.version == |ApprovalsOf(s, a.asset)| + 1 {
      NextIsKept(s, id, a);
    } else {
      OtherIsLost(s, id, a);
    }
  }

  lemma FiledStore(s: Store, id: Id, a: Approval)
    requires CreateApproval(s, id, a).out == Ok
    ensures !HasActive(s, a.asset)
    ensures CreateApproval(s, id, a).store
            == s.(approvals := s.approvals[id := a], audit := s.audit + [Audit(a.applicant, SubmitApproval, ApprovalEntity, id)])
  {}

  lemma NextIsKept(s: Store, id: Id, a: Approval)
    requires Ordered(s) && id !in s.approvals && CreateApproval(s, id, a).out == Ok
    requires a.version == |ApprovalsOf(s, a.asset)| + 1
    ensures Ordered(CreateApproval(s, id, a).store)
  {
    FiledStore(s, id, a);
    NoneActive(s, a.asset);
    NumberedNow(s.approvals, id, a);
    FiledNow(s.approvals, s.audit, id, a, Audit(a.applicant, SubmitApproval, ApprovalEntity, id));
  }

  lemma OtherIsLost(s: Store, id: Id, a: Approval)
    requires Numbered(s.approvals) && id !in s.approvals && CreateApproval(s, id, a).out == Ok
    requires a.version != |ApprovalsOf(s, a.asset)| + 1
    ensures !Numbered(CreateApproval(s, id, a).store.approvals)
  {
    FiledStore(s, id, a);
    var after := s.approvals[id := a];
    if 1 <= a.version <= |ApprovalsOf(s, a.asset)| {
      RequestsInjective(s, a.asset);
      var x := EachTaken(s.approvals, ApprovalsOf(s, a.asset), |ApprovalsOf(s, a.asset)|, a.version);
      assert SameNumber(after, x, id);
    } else {
      RangeNow(s.approvals, id, a, a.asset);
      assert !(1 <= after[id].version <= |RequestsOf(after, after[id].asset)|);
    }
  }

  lemma NoneActive(s: Store, asset: Id)
    requires !HasActive(s, asset)
    ensures forall x :: x in s.approvals && s.approvals[x].asset == asset ==> !Active(s.approvals[x].status)
  {
    forall x | x in s.approvals && s.approvals[x].asset == asset ensures !Active(s.approvals[x].status) {
      assert !ActiveFor(s, asset, x);
    }
  }

  lemma RequestsOnlyGrow(s: Store, ops: seq<Op>, asset: Id)
    requires AllIssued(s, ops)
    ensures ApprovalsOf(s, asset) <= ApprovalsOf(ApplyAll(s, ops), asset)
  {
    EveryHistoryGrows(s, ops, 0);
    assert ops[..0] == [];
  }

  lemma SameSize(a: set<Id>, b: set<Id>)
    requires a <= b
    ensures |a| == |b| <==> a == b
  {
    assert b == a + (b - a);
  }

  /**
   * A submission reads its version in `s` and files it after the operations `ops` of others: that keeps the approval
   * history if and only if none of these filed a request for the asset.
   */
  lemma LateVersionIff(s: Store, ops: seq<Op>, id: Id, a: Approval)
    requires Ordered(s) && IsNextVersion(s, a.asset, a.version) && AllIssued(s, ops)
    requires var later := ApplyAll(s, ops); Ordered(later) && id !in later.approvals && CreateApproval(later, id, a).out == Ok
    ensures Ordered(CreateApproval(ApplyAll(s, ops), id, a).store) <==> ApprovalsOf(ApplyAll(s, ops), a.asset) == ApprovalsOf(s, a.asset)
  {
    NextIsOneMore(s, a.asset, a.version);
    RequestsOnlyGrow(s, ops, a.asset);
    SameSize(ApprovalsOf(s, a.asset), ApprovalsOf(ApplyAll(s, ops), a.asset));
    FilingKeepsOrder(ApplyAll(s, ops), id, a);
  }

  /**
   * And others can do that. From every store in which an asset has no active request, two submissions that read the
   * same version are both stored, when the first is withdrawn before the second write.
   */
  lemma InterleavedVersionsRepeat(s: Store, a: Approval, b: Approval, x: Id, y: Id)
    requires a.asset in s.assets && !HasActive(s, a.asset) && x !in s.approvals && y !in s.approvals && x != y
    requires a.status == ApprovalPending && a.reviewer == "" && IsNextVersion(s, a.asset, a.version)
    requires b.status == ApprovalPending && b.reviewer == "" && b.asset == a.asset && b.version == a.version
    ensures AllIssued(s, [OpCreateApproval(x, a), OpWithdraw(x, a.applicant), OpCreateApproval(y, b)])
    ensures var s' := ApplyAll(s, [OpCreateApproval(x, a), OpWithdraw(x, a.applicant), OpCreateApproval(y, b)]);
            x in s'.approvals && y in s'.approvals && SameNumber(s'.approvals, x, y) && !Numbered(s'.approvals)
  {
    var one := CreateApproval(s, x, a).store;
    FirstFiled(s, a, x);
    var two := WithdrawApproval(one, x, a.applicant).store;
    SecondFiled(s, a, b, x, y, two);
    var three := CreateApproval(two, y, b).store;
    ThreeOps(s, OpCreateApproval(x, a), OpWithdraw(x, a.applicant), OpCreateApproval(y, b), one, two);
    assert SameNumber(three.approvals, x, y);
  }

  lemma FirstFiled(s: Store, a: Approval, x: Id)
    requires a.asset in s.assets && !HasActive(s, a.asset) && x !in s.approvals && a.status == ApprovalPending
    ensures var one := CreateApproval(s, x, a).store; var two := WithdrawApproval(one, x, a.applicant).store;
            two.approvals == s.approvals[x := a.(status := ApprovalWithdrawn)] && two.assets == s.assets
  {
    var one := CreateApproval(s, x, a).store;
    assert one.approvals == s.approvals[x := a] && one.assets == s.assets;
    PendingWithdrawn(one, x);
  }

  lemma PendingWithdrawn(s: Store, x: Id)
    requires x in s.approvals && s.approvals[x].status == ApprovalPending
    ensures var later := WithdrawApproval(s, x, s.approvals[x].applicant).store;
            later.approvals == s.approvals[x := s.approvals[x].(status := ApprovalWithdrawn)] && later.assets == s.assets
  {}

  lemma SecondFiled(s: Store, a: Approval, b: Approval, x: Id, y: Id, two: Store)
    requires a.asset in s.assets && !HasActive(s, a.asset) && b.asset == a.asset
    requires two.assets == s.assets && two.approvals == s.approvals[x := a.(status := ApprovalWithdrawn)]
    ensures CreateApproval(two, y, b).store.approvals == two.approvals[y := b]
  {
    forall id | ActiveFor(two, a.asset, id) ensures false {
      assert ActiveFor(s, a.asset, id);
    }
  }

  lemma ThreeOps(s: Store, a: Op, b: Op, c: Op, one: Store, two: Store)
    requires Issued(s, a) && one == Apply(s, a) && Issued(one, b) && two == Apply(one, b) && Issued(two, c)
    ensures AllIssued(s, [a, b, c]) && ApplyAll(s, [a, b, c]) == Apply(two, c)
  {
    assert [a, b, c][..2] == [a, b] && [a, b][..1] == [a] && [a][..0] == [];
    assert ApplyAll(s, []) == s;
    assert ApplyAll(s, [a]) == one && AllIssued(s, [a]);
    assert ApplyAll(s, [a, b]) == two && AllIssued(s, [a, b]);
  }

  // ---- the gate of a pull ----

  /** No request is lost, none changes its asset, and none becomes active again. */
  ghost predicate Fading(approvals: map<Id, Approval>, later: map<Id, Approval>) {
    forall x :: x in approvals ==> x in later && NotRevived(approvals[x], later[x])
  }

  lemma OpFades(s: Store, op: Op)
    requires Issued(s, op)
    ensures Fading(s.approvals, Apply(s, op).approvals)
  {
    match op
    case OpReview(id, to, reviewer, note) => ReviewFades(s, id, to, reviewer, note);
    case OpWithdraw(id, actor) => WithdrawFades(s, id, actor);
    case _ =>
  }

  lemma OneFades(approvals: map<Id, Approval>, id: Id, a: Approval)
    requires id in approvals && NotRevived(approvals[id], a)
    ensures Fading(approvals, approvals[id := a])
  {}

  lemma ReviewFades(s: Store, id: Id, to: ApprovalStatus, reviewer: string, note: string)
    ensures Fading(s.approvals, ReviewApproval(s, id, to, reviewer, note).store.approvals)
  {
    if ReviewApproval(s, id, to, reviewer, note).out == Ok {
      OneFades(s.approvals, id, s.approvals[id].(status := to, reviewer := reviewer, note := note));
    }
  }

  lemma WithdrawFades(s: Store, id: Id, actor: string)
    ensures Fading(s.approvals, WithdrawApproval(s, id, actor).store.approvals)
  {
    if WithdrawApproval(s, id, actor).out == Ok {
      OneFades(s.approvals, id, s.approvals[id].(status := ApprovalWithdrawn));
    }
  }

  lemma {:induction false} HistoryFades(s: Store, ops: seq<Op>)
    requires AllIssued(s, ops)
    ensures Fading(s.approvals, ApplyAll(s, ops).approvals)
    decreases |ops|
  {
    if |ops| > 0 {
      HistoryFades(s, ops[..|ops| - 1]);
      OpFades(ApplyAll(s, ops[..|ops| - 1]), ops[|ops| - 1]);
    }
  }

  /** A request filed after `s` has been approved. */
  ghost predicate ApprovedSince(s: Store, later: Store, asset: Id) {
    exists y :: y in later.approvals && y !in s.approvals && ApprovedFor(later.approvals, asset, y)
  }

  /**
   * A pull finds the approved request `x` in `s` and moves its asset after the operations `ops` of others. That write
   * keeps the gate if and only if `x` is still approved, or a request filed since has been approved in its place, or
   * the asset is no longer pending, so that the write moves nothing.
   */
  lemma LatePullIff(s: Store, ops: seq<Op>, asset: Id, x: Id, operator: string)
    requires OneActive(s.approvals) && ApprovedFor(s.approvals, asset, x) && AllIssued(s, ops)
    requires var later := ApplyAll(s, ops); asset in later.assets && Gated(later.assets, later.approvals)
    ensures var later := ApplyAll(s, ops);
            var moved := TransitionAsset(later, asset, AssetDiskPulled, operator, PullDisksAction).store;
            Gated(moved.assets, moved.approvals) <==>
              || later.assets[asset].status != AssetPending
              || ApprovedFor(later.approvals, asset, x)
              || ApprovedSince(s, later, asset)
  {
    var later := ApplyAll(s, ops);
    var moved := TransitionAsset(later, asset, AssetDiskPulled, operator, PullDisksAction).store;
    HistoryFades(s, ops);
    PullWrite(later, asset, operator);
    if later.assets[asset].status == AssetPending {
      forall y | y in later.approvals && ApprovedFor(later.approvals, asset, y) ensures y == x || y !in s.approvals {
        if y in s.approvals {
          assert NotRevived(s.approvals[y], later.approvals[y]);
          OnlyApproved(s, asset, x, y);
        }
      }
    }
  }

  /** The last write of a pull keeps the gate unless it moves a pending asset without an approved request. */
  lemma PullWrite(s: Store, asset: Id, operator: string)
    requires asset in s.assets && Gated(s.assets, s.approvals)
    ensures var moved := TransitionAsset(s, asset, AssetDiskPulled, operator, PullDisksAction).store;
            Gated(moved.assets, moved.approvals) <==> s.assets[asset].status != AssetPending || HasApproved(s.approvals, asset)
  {
    PullMoves(s, asset, operator);
    var moved := TransitionAsset(s, asset, AssetDiskPulled, operator, PullDisksAction).store;
    if s.assets[asset].status == AssetPending {
      assert moved.assets[asset].status == AssetDiskPulled;
    }
  }

  lemma PullMoves(s: Store, asset: Id, operator: string)
    requires asset in s.assets
    ensures var moved := TransitionAsset(s, asset, AssetDiskPulled, operator, PullDisksAction);
            && moved.store.approvals == s.approvals
            && moved.store.assets == (if s.assets[asset].status == AssetPending
                                      then s.assets[asset := s.assets[asset].(status := AssetDiskPulled)] else s.assets)
            && (s.assets[asset].status == AssetPending ==> moved.out == Ok)
  {
    OnlyFromPending(s.assets[asset].status);
    if s.assets[asset].status == AssetDiskPulled {
      assert s.assets[asset := s.assets[asset].(status := AssetDiskPulled)] == s.assets;
    }
  }

  lemma OnlyFromPending(from: AssetStatus)
    ensures CanTransitionAsset(from, AssetDiskPulled) <==> from == AssetPending || from == AssetDiskPulled
  {}

  /** And others can take it away: one withdrawal is enough. */
  lemma InterleavedPullEscapesGate(s: Store, asset: Id, x: Id, operator: string)
    requires OneActive(s.approvals) && asset in s.assets && s.assets[asset].status == AssetPending
    requires ApprovedFor(s.approvals, asset, x)
    ensures Passes(s, Some(x)) && FoundActive(s, asset, Some(x)) && AllIssued(s, [OpWithdraw(x, s.approvals[x].applicant)])
    ensures var later := ApplyAll(s, [OpWithdraw(x, s.approvals[x].applicant)]);
            var moved := TransitionAsset(later, asset, AssetDiskPulled, operator, PullDisksAction);
            moved.out == Ok && !Gated(moved.store.assets, moved.store.approvals)
  {
    var op := OpWithdraw(x, s.approvals[x].applicant);
    assert [op][..0] == [] && ApplyAll(s, []) == s;
    var later := WithdrawApproval(s, x, s.approvals[x].applicant).store;
    assert ApplyAll(s, [op]) == Apply(s, op) == later;
    OnlyWithdrawn(s, asset, x);
    PullMoves(later, asset, operator);
  }

  lemma OnlyWithdrawn(s: Store, asset: Id, x: Id)
    requires OneActive(s.approvals) && asset in s.assets && s.assets[asset].status == AssetPending
    requires ApprovedFor(s.approvals, asset, x)
    ensures var later := WithdrawApproval(s, x, s.approvals[x].applicant).store;
            later.assets == s.assets && !HasApproved(later.approvals, asset)
  {
    var later := WithdrawApproval(s, x, s.approvals[x].applicant).store;
    assert later.approvals == s.approvals[x := s.approvals[x].(status := ApprovalWithdrawn)];
    forall y | y in later.approvals && ApprovedFor(later.approvals, asset, y) ensures false {
      OnlyApproved(s, asset, x, y);
    }
  }
}
