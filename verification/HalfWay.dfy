/**
 * Why the bound terms need complete pulls: a pull that stops half-way leaves a disk on an asset whose request
 * can still be withdrawn and replaced, after a job was already ordered by the old terms.
 */
module HalfWay {
  import opened Domain
  import opened StoreModel
  import opened History
  import opened ServiceRules
  import opened Gate

  /** A pull that passes every check and then meets an incomplete input after a complete one. */
  predicate StopsHalfWay(s: Store, call: Call) {
    && call.CallPull? && call.operator != "" && |call.inputs| > 0
    && call.asset in s.assets && s.assets[call.asset].status == AssetPending && Passes(s, call.found)
    && Complete(call.inputs[0]) && exists i :: 0 < i < |call.inputs| && !Complete(call.inputs[i])
  }

  /** Exactly when a call keeps the invariant behind the bound terms. */
  lemma CallKeepsBoundIff(s: Store, call: Call)
    requires Sound(s) && Gatekept(s) && Bound(s) && Permitted(s, call)
    ensures Bound(Perform(s, call)) <==> !StopsHalfWay(s, call)
  {
    if !call.CallPull? {
      CallKeeps(s, call);
    } else {
      PullKeepsBoundIff(s, call.asset, call.operator, call.inputs, call.ids, call.found);
      assert Perform(s, call) == Pull(s, call.asset, call.operator, call.inputs, call.ids, call.found).store;
    }
  }

  lemma PullKeepsBoundIff(s: Store, asset: Id, operator: string, inputs: seq<DiskInput>, ids: seq<Id>, found: Option<Id>)
    requires Sound(s) && Gatekept(s) && Bound(s) && |ids| == |inputs| && FreshIds(s, ids) && FoundActive(s, asset, found)
    ensures Bound(Pull(s, asset, operator, inputs, ids, found).store)
            <==> !StopsHalfWay(s, CallPull(asset, operator, inputs, ids, found))
  {
    var s' := Pull(s, asset, operator, inputs, ids, found).store;
    if s' != s {
      PullStopsHalfWay(s, asset, operator, inputs, ids, found);
      AddedDisks(s, asset, operator, inputs, ids, Accepted(inputs));
      if StopsHalfWay(s, CallPull(asset, operator, inputs, ids, found)) {
        assert ids[0] in ids[..Accepted(inputs)];
        assert s'.disks[ids[0]].asset == asset;
      } else {
        PullKeepsBound(s, asset, operator, inputs, ids, found);
      }
    } else if StopsHalfWay(s, CallPull(asset, operator, inputs, ids, found)) {
      PullStopsHalfWay(s, asset, operator, inputs, ids, found);
    }
  }

  // ---- the damage ----

  const HALF := [DiskInput("S1", "/dev/sdx"), DiskInput("", "")]

  lemma PulledHalf(s: Store, asset: Id, operator: string, ids: seq<Id>, x: Id)
    requires |ids| == 2 && FreshIds(s, ids) && operator != ""
    requires asset in s.assets && s.assets[asset].status == AssetPending && ApprovedFor(s.approvals, asset, x)
    ensures Pull(s, asset, operator, HALF, ids, Some(x)).store
            == s.(disks := s.disks[ids[0] := Disk(asset, "S1", "/dev/sdx", DiskPulled, operator)])
  {
    assert Accepted(HALF[1..]) == 0;
    assert Accepted(HALF) == 1;
    assert AddDisks(s, asset, operator, HALF, ids, 0) == s;
    assert AddDisks(s, asset, operator, HALF, ids, 1)
        == CreateDisk(s, ids[0], Disk(asset, "S1", "/dev/sdx", DiskPulled, operator)).store;
  }

  lemma OrderedEarly(s: Store, disk: Id, operator: string, j: Id, now: nat, x: Id)
    requires disk in s.disks && s.disks[disk].status == DiskPulled && s.disks[disk].asset in s.assets
    requires s.assets[s.disks[disk].asset].status == AssetPending && operator != ""
    requires ApprovedFor(s.approvals, s.disks[disk].asset, x) && s.approvals[x].standard in STANDARDS
    ensures var s' := Order(s, disk, s.approvals[x].standard, operator, j, now, Some(x)).store;
            && s'.assets == s.assets && s'.approvals == s.approvals && s'.disks == s.disks
            && j in s'.jobs && s'.jobs[j].disk == disk && s'.jobs[j].standard == s.approvals[x].standard
  {
    BuiltInStandards(s.approvals[x].standard);
    var job := Job(disk, s.approvals[x].standard, JobPending, |JobsOf(s, disk)|, 0, 0, 0, operator, "", 0, now);
    var created := CreateJob(s, j, job, now).store;
    assert TransitionAsset(created, s.disks[disk].asset, AssetErasing, operator, StartErasing).store == created;
  }

  lemma WithdrawnLate(s: Store, asset: Id, x: Id)
    requires ApprovedFor(s.approvals, asset, x) && s.approvals[x].applicant != ""
    requires asset in s.assets && s.assets[asset].status == AssetPending
    ensures var s' := Withdraw(s, x, s.approvals[x].applicant).store;
            && s'.assets == s.assets && s'.disks == s.disks && s'.jobs == s.jobs
            && s'.approvals == s.approvals[x := s.approvals[x].(status := ApprovalWithdrawn)]
  {}

  lemma SubmittedAnew(s: Store, asset: Id, standard: string, operator: string, y: Id, version: nat)
    requires asset in s.assets && s.assets[asset].status == AssetPending
    requires s.assets[asset].owner == "" || s.assets[asset].owner == operator
    requires !HasActive(s, asset) && standard in STANDARDS && operator != ""
    ensures var s' := Submit(s, asset, standard, "reuse", operator, y, version).store;
            && s'.assets == s.assets && s'.disks == s.disks && s'.jobs == s.jobs
            && s'.approvals == s.approvals[y := Approval(asset, standard, "reuse", operator, ApprovalPending, "", "", version)]
  {
    BuiltInStandards(standard);
  }

  lemma ApprovedAnew(s: Store, y: Id, reviewer: string)
    requires y in s.approvals && s.approvals[y].status == ApprovalPending
    requires reviewer != "" && reviewer != s.approvals[y].applicant
    ensures var s' := Review(s, y, reviewer, true, "").store;
            && s'.disks == s.disks && s'.jobs == s.jobs
            && s'.approvals == s.approvals[y := s.approvals[y].(status := ApprovalApproved, reviewer := reviewer, note := "")]
  {}

  /** Who may submit for an asset: its owner, or anybody if it has none. */
  function Submitter(a: Asset, otherwise: string): string {
    if a.owner == "" then otherwise else a.owner
  }

  /**
   * From every state with an approved asset still pending, five permitted calls reach a state in which a job wipes by
   * another standard than the approved one; the first of them is a pull that stops half-way.
   */
  lemma HalfWayPullBreaksTerms(
    s: Store, asset: Id, x: Id, other: string, ids: seq<Id>, j: Id, y: Id, version: nat, reviewer: string)
    requires OneActive(s.approvals) && ApprovalsKnown(s.approvals, s.assets)
    requires asset in s.assets && s.assets[asset].status == AssetPending
    requires ApprovedFor(s.approvals, asset, x) && s.approvals[x].standard in STANDARDS && s.approvals[x].applicant != ""
    requires other in STANDARDS && other != s.approvals[x].standard
    requires reviewer != "" && reviewer != Submitter(s.assets[asset], s.approvals[x].applicant)
    requires |ids| == 2 && FreshIds(s, ids) && j !in s.jobs && y !in s.approvals && IsNextVersion(s, asset, version)
    ensures var operator := s.approvals[x].applicant;
            var s1 := Pull(s, asset, operator, HALF, ids, Some(x)).store;
            var s2 := Order(s1, ids[0], s.approvals[x].standard, operator, j, 0, Some(x)).store;
            var s3 := Withdraw(s2, x, operator).store;
            var s4 := Submit(s3, asset, other, "reuse", Submitter(s.assets[asset], operator), y, version).store;
            var s5 := Review(s4, y, reviewer, true, "").store;
            && StopsHalfWay(s, CallPull(asset, operator, HALF, ids, Some(x))) && FoundActive(s, asset, Some(x))
            && j !in s1.jobs && ids[0] in s1.disks && FoundActive(s1, s1.disks[ids[0]].asset, Some(x))
            && y !in s3.approvals && IsNextVersion(s3, asset, version)
            && !JobTerms(s5.jobs, s5.disks, s5.approvals)
  {
    var operator := s.approvals[x].applicant;
    assert !Complete(HALF[1]);
    PulledHalf(s, asset, operator, ids, x);
    var s1 := Pull(s, asset, operator, HALF, ids, Some(x)).store;
    var s2 := Order(s1, ids[0], s.approvals[x].standard, operator, j, 0, Some(x)).store;
    OrderedEarly(s1, ids[0], operator, j, 0, x);
    var s3 := Withdraw(s2, x, operator).store;
    WithdrawnLate(s2, asset, x);
    Replaced(s, s3, asset, x, other, Submitter(s.assets[asset], operator), j, y, version, reviewer);
  }

  /** The second half of the story: a new request by other terms is filed and approved. */
  lemma Replaced(s: Store, s3: Store, asset: Id, x: Id, other: string, operator: string, j: Id, y: Id, version: nat, reviewer: string)
    requires OneActive(s.approvals) && ApprovedFor(s.approvals, asset, x)
    requires s3.assets == s.assets && s3.approvals == s.approvals[x := s.approvals[x].(status := ApprovalWithdrawn)]
    requires asset in s.assets && s.assets[asset].status == AssetPending
    requires operator != "" && (s.assets[asset].owner == "" || s.assets[asset].owner == operator)
    requires other in STANDARDS && reviewer != "" && reviewer != operator
    requires y !in s.approvals && IsNextVersion(s, asset, version)
    requires j in s3.jobs && s3.jobs[j].disk in s3.disks && s3.disks[s3.jobs[j].disk].asset == asset
    requires s3.jobs[j].standard != other
    ensures IsNextVersion(s3, asset, version)
    ensures var s4 := Submit(s3, asset, other, "reuse", operator, y, version).store;
            var s5 := Review(s4, y, reviewer, true, "").store;
            !JobTerms(s5.jobs, s5.disks, s5.approvals)
  {
    assert ApprovalsOf(s3, asset) == ApprovalsOf(s, asset);
    forall id | ActiveFor(s3, asset, id) ensures false {
      OnlyApproved(s, asset, x, id);
    }
    var s4 := Submit(s3, asset, other, "reuse", operator, y, version).store;
    SubmittedAnew(s3, asset, other, operator, y, version);
    var s5 := Review(s4, y, reviewer, true, "").store;
    ApprovedAnew(s4, y, reviewer);
    assert ApprovedFor(s5.approvals, asset, y) && s5.disks[s5.jobs[j].disk].asset == asset;
  }
}
