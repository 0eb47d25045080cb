/**
 * The approval gate and what it protects, with every service call one atomic step: execution needs an
 * approved request, the approved request is frozen once execution has begun, and its terms bind the jobs,
 * certificates and disposals that follow.
 */
module Gate {
  import opened Domain
  import opened StoreModel
  import opened History
  import opened ServiceRules

  // ---- the invariants, field by field ----

  predicate ApprovedFor(approvals: map<Id, Approval>, asset: Id, id: Id) {
    id in approvals && approvals[id].asset == asset && approvals[id].status == ApprovalApproved
  }

  predicate HasApproved(approvals: map<Id, Approval>, asset: Id) {
    exists id :: id in approvals && ApprovedFor(approvals, asset, id)
  }

  /** Nothing leaves the pending state without an approved request. */
  ghost predicate Gated(assets: map<Id, Asset>, approvals: map<Id, Approval>) {
    forall a :: a in assets && assets[a].status != AssetPending ==> HasApproved(approvals, a)
  }

  /** Disks are only recorded for assets that have left the pending state. */
  ghost predicate DisksPulled(disks: map<Id, Disk>, assets: map<Id, Asset>) {
    forall d :: d in disks ==> disks[d].asset in assets && assets[disks[d].asset].status != AssetPending
  }

  /** Every job wipes by the approved standard of its asset. */
  ghost predicate JobTerms(jobs: map<Id, Job>, disks: map<Id, Disk>, approvals: map<Id, Approval>) {
    forall j, id :: (j in jobs && jobs[j].disk in disks && id in approvals && ApprovedFor(approvals, disks[jobs[j].disk].asset, id))
                    ==> approvals[id].standard == jobs[j].standard
  }

  predicate ScrapRow(row: Audit, asset: Id) {
    row.kind == AssetEntity && row.id == asset && row.action == ScrapAsset
  }

  ghost predicate WasScrapped(log: seq<Audit>, asset: Id) {
    exists i :: 0 <= i < |log| && ScrapRow(log[i], asset)
  }

  /** Every disposal follows the approved route, or destroys an asset that had been scrapped. */
  ghost predicate DisposalTerms(disposals: map<Id, Disposal>, approvals: map<Id, Approval>, log: seq<Audit>) {
    forall a, id :: a in disposals && id in approvals && ApprovedFor(approvals, a, id) ==>
      disposals[a].route == approvals[id].route || (disposals[a].route == "destroy" && WasScrapped(log, a))
  }

  /** A scrapped disk has already forced its asset out of the erasure path. */
  ghost predicate ScrapForces(disks: map<Id, Disk>, assets: map<Id, Asset>) {
    forall d :: d in disks && disks[d].status == DiskScrapped && disks[d].asset in assets ==>
      Stage(assets[disks[d].asset].status) >= 4
  }

  /** What holds for every use of the service. */
  ghost predicate Gatekept(s: Store) {
    Gated(s.assets, s.approvals) && DisposalTerms(s.disposals, s.approvals, s.audit)
  }

  /** What holds in addition when no pull stops half-way. */
  ghost predicate Bound(s: Store) {
    Settled(s) && ScrapForces(s.disks, s.assets)
  }

  ghost predicate Settled(s: Store) {
    DisksPulled(s.disks, s.assets) && JobTerms(s.jobs, s.disks, s.approvals)
  }

  // ---- consequences ----

  lemma OnlyApproved(s: Store, asset: Id, x: Id, y: Id)
    requires OneActive(s.approvals) && ApprovedFor(s.approvals, asset, x) && ActiveFor(s, asset, y)
    ensures x == y
  {
    assert BothActive(s.approvals, x, y);
  }

  /** In every such state an asset past pending has exactly one active request, and it is approved. */
  lemma ExactlyOneApproved(s: Store, asset: Id) returns (id: Id)
    requires Sound(s) && Gatekept(s) && asset in s.assets && s.assets[asset].status != AssetPending
    ensures ApprovedFor(s.approvals, asset, id)
    ensures forall other :: ActiveFor(s, asset, other) <==> other == id
  {
    assert HasApproved(s.approvals, asset);
    id :| id in s.approvals && ApprovedFor(s.approvals, asset, id);
    forall other | ActiveFor(s, asset, other) ensures other == id {
      OnlyApproved(s, asset, id, other);
    }
  }

  lemma {:induction false} ScrappedHasRow(log: seq<Audit>, asset: Id)
    requires ReplayAsset(log, asset) == Some(AssetScrapped)
    ensures WasScrapped(log, asset)
    decreases |log|
  {
    if ScrapRow(log[|log| - 1], asset) {
    } else {
      ScrappedHasRow(log[..|log| - 1], asset);
      var i :| 0 <= i < |log| - 1 && ScrapRow(log[..|log| - 1][i], asset);
      assert ScrapRow(log[i], asset);
    }
  }

  lemma ScrappedStays(log: seq<Audit>, log': seq<Audit>, asset: Id)
    requires log <= log' && WasScrapped(log, asset)
    ensures WasScrapped(log', asset)
  {
    var i :| 0 <= i < |log| && ScrapRow(log[i], asset);
    assert log'[i] == log[i];
  }

  lemma DisposalTermsLonger(disposals: map<Id, Disposal>, approvals: map<Id, Approval>, log: seq<Audit>, log': seq<Audit>)
    requires DisposalTerms(disposals, approvals, log) && log <= log'
    ensures DisposalTerms(disposals, approvals, log')
  {
    forall a | a in disposals && WasScrapped(log, a) ensures WasScrapped(log', a) {
      ScrappedStays(log, log', a);
    }
  }

  // ---- steps that leave the gate alone ----

  /** Assets, requests and disposals untouched; no disk newly scrapped; jobs keep their order. */
  ghost predicate Quiet(s: Store, s': Store) {
    && s'.assets == s.assets && s'.approvals == s.approvals && s'.disposals == s.disposals
    && s.audit <= s'.audit
    && s'.disks.Keys == s.disks.Keys
    && (forall d :: d in s.disks ==> s'.disks[d].asset == s.disks[d].asset && s'.disks[d].serial == s.disks[d].serial
                                     && (s'.disks[d].status == DiskScrapped ==> s.disks[d].status == DiskScrapped))
    && s'.jobs.Keys == s.jobs.Keys && JobsStay(s.jobs, s'.jobs)
  }

  lemma QuietKeepsGate(s: Store, s': Store)
    requires Gatekept(s) && Quiet(s, s')
    ensures Gatekept(s')
  {
    DisposalTermsLonger(s.disposals, s.approvals, s.audit, s'.audit);
  }

  lemma QuietKeepsSettled(s: Store, s': Store)
    requires Settled(s) && Quiet(s, s')
    ensures Settled(s')
  {
    assert DisksPulled(s'.disks, s'.assets);
    forall j, id | j in s'.jobs && s'.jobs[j].disk in s'.disks && id in s'.approvals
                   && ApprovedFor(s'.approvals, s'.disks[s'.jobs[j].disk].asset, id)
      ensures s'.approvals[id].standard == s'.jobs[j].standard
    {
      assert SameOrder(s.jobs[j], s'.jobs[j]);
      assert s'.disks[s.jobs[j].disk].asset == s.disks[s.jobs[j].disk].asset;
    }
  }

  lemma QuietKeepsBound(s: Store, s': Store)
    requires Bound(s) && Quiet(s, s')
    ensures Bound(s')
  {
    QuietKeepsSettled(s, s');
    forall d | d in s'.disks && s'.disks[d].status == DiskScrapped && s'.disks[d].asset in s'.assets
      ensures Stage(s'.assets[s'.disks[d].asset].status) >= 4
    {
      assert s.disks[d].status == DiskScrapped;
    }
  }

  // ---- the calls, one by one ----

  lemma GatedPut(assets: map<Id, Asset>, approvals: map<Id, Approval>, id: Id, a: Asset)
    requires Gated(assets, approvals) && (a.status != AssetPending ==> HasApproved(approvals, id))
    ensures Gated(assets[id := a], approvals)
  {}

  lemma RegisterKeeps(s: Store, tag: string, owner: string, operator: string, id: Id)
    requires Sound(s) && Gatekept(s) && id !in s.assets
    ensures var s' := Register(s, tag, owner, operator, id).store; Sound(s') && Gatekept(s') && (Bound(s) ==> Bound(s'))
  {
    var s' := Register(s, tag, owner, operator, id).store;
    if s' != s {
      var a := Asset(tag, owner, AssetPending, operator);
      CreateAssetSound(s, id, a);
      assert s' == CreateAsset(s, id, a).store && s'.assets == s.assets[id := a];
      RegisteredGate(s, id, a, s'.audit);
    }
  }

  lemma RegisteredGate(s: Store, id: Id, a: Asset, log: seq<Audit>)
    requires Gatekept(s) && DisksKnown(s.disks, s.assets) && id !in s.assets && a.status == AssetPending && s.audit <= log
    ensures Gated(s.assets[id := a], s.approvals) && DisposalTerms(s.disposals, s.approvals, log)
    ensures DisksPulled(s.disks, s.assets) ==> DisksPulled(s.disks, s.assets[id := a])
    ensures ScrapForces(s.disks, s.assets) ==> ScrapForces(s.disks, s.assets[id := a])
  {
    GatedPut(s.assets, s.approvals, id, a);
    DisposalTermsLonger(s.disposals, s.approvals, s.audit, log);
  }

  /** A request that is not approved changes nothing that the gate protects. */
  lemma UnapprovedPut(approvals: map<Id, Approval>, id: Id, a: Approval, asset: Id)
    requires a.status != ApprovalApproved && !ApprovedFor(approvals, asset, id)
    ensures HasApproved(approvals, asset) ==> HasApproved(approvals[id := a], asset)
  {
    if HasApproved(approvals, asset) {
      var x :| x in approvals && ApprovedFor(approvals, asset, x);
      assert ApprovedFor(approvals[id := a], asset, x);
    }
  }

  lemma UnapprovedKeeps(s: Store, id: Id, a: Approval, row: Audit)
    requires Gatekept(s) && a.status != ApprovalApproved
    requires id in s.approvals && s.approvals[id].status == ApprovalApproved ==>
               s.approvals[id].asset in s.assets && s.assets[s.approvals[id].asset].status == AssetPending
    ensures var s' := s.(approvals := s.approvals[id := a], audit := s.audit + [row]);
            Gatekept(s') && (Bound(s) ==> Bound(s'))
  {
    var s' := s.(approvals := s.approvals[id := a], audit := s.audit + [row]);
    forall x | x in s.assets && s.assets[x].status != AssetPending ensures HasApproved(s'.approvals, x) {
      UnapprovedPut(s.approvals, id, a, x);
    }
    DisposalTermsLonger(s.disposals, s.approvals, s.audit, s'.audit);
    assert forall x, y :: ApprovedFor(s'.approvals, x, y) ==> ApprovedFor(s.approvals, x, y) && s'.approvals[y] == s.approvals[y];
  }

  lemma SubmitKeeps(s: Store, asset: Id, standard: string, route: string, operator: string, id: Id, version: nat)
    requires Sound(s) && Gatekept(s) && id !in s.approvals
    ensures var s' := Submit(s, asset, standard, route, operator, id, version).store;
            Sound(s') && Gatekept(s') && (Bound(s) ==> Bound(s'))
  {
    var s' := Submit(s, asset, standard, route, operator, id, version).store;
    if s' != s {
      var a := Approval(asset, STANDARDS[standard].code, route, operator, ApprovalPending, "", "", version);
      CreateApprovalSound(s, id, a);
      UnapprovedKeeps(s, id, a, Audit(operator, SubmitApproval, ApprovalEntity, id));
    }
  }

  /** An asset whose request is still waiting for review has not started execution. */
  lemma WaitingMeansPending(s: Store, id: Id)
    requires Sound(s) && Gatekept(s) && id in s.approvals && s.approvals[id].status == ApprovalPending
    ensures s.approvals[id].asset in s.assets && s.assets[s.approvals[id].asset].status == AssetPending
  {
    var asset := s.approvals[id].asset;
    assert asset in s.assets;
    if s.assets[asset].status != AssetPending {
      var x := ExactlyOneApproved(s, asset);
      assert ActiveFor(s, asset, id);
    }
  }

  lemma ReviewKeeps(s: Store, id: Id, reviewer: string, approve: bool, note: string)
    requires Sound(s) && Gatekept(s)
    ensures var s' := Review(s, id, reviewer, approve, note).store; Sound(s') && Gatekept(s') && (Bound(s) ==> Bound(s'))
  {
    var s' := Review(s, id, reviewer, approve, note).store;
    if s' != s {
      var to := if approve then ApprovalApproved else ApprovalRejected;
      ReviewApprovalSound(s, id, to, reviewer, note);
      WaitingMeansPending(s, id);
      if approve {
        ApprovedNow(s, id, s'.approvals[id], s'.audit[|s.audit|]);
      } else {
        UnapprovedKeeps(s, id, s'.approvals[id], s'.audit[|s.audit|]);
      }
    }
  }

  lemma ApprovedNow(s: Store, id: Id, a: Approval, row: Audit)
    requires Sound(s) && Gatekept(s) && a.status == ApprovalApproved
    requires id in s.approvals && s.approvals[id].status == ApprovalPending && SameRequest(s.approvals[id], a)
    requires a.asset in s.assets && s.assets[a.asset].status == AssetPending
    ensures var s' := s.(approvals := s.approvals[id := a], audit := s.audit + [row]);
            Gatekept(s') && (Bound(s) ==> Bound(s'))
  {
    GatedApproved(s.assets, s.approvals, id, a);
    NotDisposedYet(s, a.asset);
    DisposalsApproved(s.disposals, s.approvals, s.audit, id, a);
    DisposalTermsLonger(s.disposals, s.approvals[id := a], s.audit, s.audit + [row]);
    if Bound(s) {
      NoDisksYet(s, a.asset);
      JobsApproved(s.jobs, s.disks, s.approvals, id, a);
    }
  }

  lemma NotDisposedYet(s: Store, asset: Id)
    requires Disposals(s.assets, s.disposals) && asset in s.assets && s.assets[asset].status == AssetPending
    ensures asset !in s.disposals
  {}

  lemma NoDisksYet(s: Store, asset: Id)
    requires DisksPulled(s.disks, s.assets) && asset in s.assets && s.assets[asset].status == AssetPending
    ensures forall d :: d in s.disks ==> s.disks[d].asset != asset
  {}

  lemma DisposalsApproved(disposals: map<Id, Disposal>, approvals: map<Id, Approval>, log: seq<Audit>, id: Id, a: Approval)
    requires DisposalTerms(disposals, approvals, log) && a.asset !in disposals
    ensures DisposalTerms(disposals, approvals[id := a], log)
  {
    forall x, y | x in disposals && ApprovedFor(approvals[id := a], x, y) ensures ApprovedFor(approvals, x, y) && y != id {}
  }

  lemma JobsApproved(jobs: map<Id, Job>, disks: map<Id, Disk>, approvals: map<Id, Approval>, id: Id, a: Approval)
    requires JobTerms(jobs, disks, approvals) && forall d :: d in disks ==> disks[d].asset != a.asset
    ensures JobTerms(jobs, disks, approvals[id := a])
  {
    forall d, y | d in disks && ApprovedFor(approvals[id := a], disks[d].asset, y)
      ensures ApprovedFor(approvals, disks[d].asset, y) && y != id {}
  }

  lemma GatedApproved(assets: map<Id, Asset>, approvals: map<Id, Approval>, id: Id, a: Approval)
    requires Gated(assets, approvals) && id in approvals && approvals[id].status == ApprovalPending
    ensures Gated(assets, approvals[id := a])
  {
    forall x | x in assets && assets[x].status != AssetPending ensures HasApproved(approvals[id := a], x) {
      var y :| y in approvals && ApprovedFor(approvals, x, y);
      assert ApprovedFor(approvals[id := a], x, y);
    }
  }

  lemma WithdrawParts(s: Store, id: Id, operator: string)
    ensures var s' := Withdraw(s, id, operator).store;
            s' != s ==>
              && s' == WithdrawApproval(s, id, operator).store && id in s.approvals
              && s' == s.(approvals := s.approvals[id := s.approvals[id].(status := ApprovalWithdrawn)],
                          audit := s.audit + [Audit(operator, WithdrawApprovalAction, ApprovalEntity, id)])
              && (s.approvals[id].status == ApprovalApproved ==>
                    s.approvals[id].asset !in s.assets || s.assets[s.approvals[id].asset].status == AssetPending)
  {}

  lemma WithdrawKeeps(s: Store, id: Id, operator: string)
    requires Sound(s) && Gatekept(s)
    ensures var s' := Withdraw(s, id, operator).store; Sound(s') && Gatekept(s') && (Bound(s) ==> Bound(s'))
  {
    WithdrawParts(s, id, operator);
    if Withdraw(s, id, operator).store != s {
      WithdrawApprovalSound(s, id, operator);
      assert s.approvals[id].asset in s.assets;
      UnapprovedKeeps(s, id, s.approvals[id].(status := ApprovalWithdrawn),
                      Audit(operator, WithdrawApprovalAction, ApprovalEntity, id));
    }
  }

  // ---- pulling disks ----

  lemma {:induction false} AddedDisks(s: Store, asset: Id, operator: string, inputs: seq<DiskInput>, ids: seq<Id>, n: nat)
    requires asset in s.assets && |ids| == |inputs| && n <= |inputs| && FreshIds(s, ids)
    ensures var s' := AddDisks(s, asset, operator, inputs, ids, n);
            && s' == s.(disks := s'.disks)
            && (forall d :: d in s'.disks <==> d in s.disks || d in ids[..n])
            && (forall d :: d in s.disks ==> s'.disks[d] == s.disks[d])
            && (forall d :: d in s'.disks && d !in s.disks ==> s'.disks[d].asset == asset && s'.disks[d].status == DiskPulled)
    decreases n
  {
    if n > 0 {
      AddedDisks(s, asset, operator, inputs, ids, n - 1);
      var before := AddDisks(s, asset, operator, inputs, ids, n - 1);
      var d := Disk(asset, inputs[n - 1].serial, inputs[n - 1].path, DiskPulled, operator);
      var after := AddDisks(s, asset, operator, inputs, ids, n);
      assert after == CreateDisk(before, ids[n - 1], d).store == before.(disks := before.disks[ids[n - 1] := d]);
      assert ids[..n] == ids[..n - 1] + [ids[n - 1]];
    }
  }

  lemma LastDiskIsNew(s: Store, asset: Id, operator: string, inputs: seq<DiskInput>, ids: seq<Id>, n: nat)
    requires asset in s.assets && |ids| == |inputs| && 0 < n <= |inputs| && FreshIds(s, ids)
    ensures var before := AddDisks(s, asset, operator, inputs, ids, n - 1);
            var d := Disk(asset, inputs[n - 1].serial, inputs[n - 1].path, DiskPulled, operator);
            ids[n - 1] !in before.disks && AddDisks(s, asset, operator, inputs, ids, n) == CreateDisk(before, ids[n - 1], d).store
  {
    AddedDisks(s, asset, operator, inputs, ids, n - 1);
  }

  lemma {:induction false} AddedDisksSound(s: Store, asset: Id, operator: string, inputs: seq<DiskInput>, ids: seq<Id>, n: nat)
    requires Sound(s) && asset in s.assets && |ids| == |inputs| && n <= |inputs| && FreshIds(s, ids)
    ensures Sound(AddDisks(s, asset, operator, inputs, ids, n))
    decreases n
  {
    if n > 0 {
      AddedDisksSound(s, asset, operator, inputs, ids, n - 1);
      LastDiskIsNew(s, asset, operator, inputs, ids, n);
      var before := AddDisks(s, asset, operator, inputs, ids, n - 1);
      CreateDiskSound(before, ids[n - 1], Disk(asset, inputs[n - 1].serial, inputs[n - 1].path, DiskPulled, operator));
    }
  }

  lemma PullKeeps(s: Store, asset: Id, operator: string, inputs: seq<DiskInput>, ids: seq<Id>, found: Option<Id>)
    requires Sound(s) && Gatekept(s) && |ids| == |inputs| && FreshIds(s, ids) && FoundActive(s, asset, found)
    ensures var s' := Pull(s, asset, operator, inputs, ids, found).store; Sound(s') && Gatekept(s')
  {
    var s' := Pull(s, asset, operator, inputs, ids, found).store;
    if s' != s {
      var n := Accepted(inputs);
      var mid := AddDisks(s, asset, operator, inputs, ids, n);
      AddedDisks(s, asset, operator, inputs, ids, n);
      AddedDisksSound(s, asset, operator, inputs, ids, n);
      if n == |inputs| {
        assert ApprovedFor(s.approvals, asset, found.value);
        PulledAssetMoves(mid, asset, operator);
      }
    }
  }

  lemma PulledAssetMoves(s: Store, asset: Id, operator: string)
    requires Sound(s) && Gatekept(s) && HasApproved(s.approvals, asset)
    ensures var s' := TransitionAsset(s, asset, AssetDiskPulled, operator, PullDisksAction).store; Sound(s') && Gatekept(s')
  {
    var s' := TransitionAsset(s, asset, AssetDiskPulled, operator, PullDisksAction).store;
    TransitionAssetSound(s, asset, AssetDiskPulled, operator, PullDisksAction);
    if s' != s {
      GatedPut(s.assets, s.approvals, asset, s'.assets[asset]);
      DisposalTermsLonger(s.disposals, s.approvals, s.audit, s'.audit);
    }
  }

  lemma PullKeepsBound(s: Store, asset: Id, operator: string, inputs: seq<DiskInput>, ids: seq<Id>, found: Option<Id>)
    requires JobsKnown(s.jobs, s.disks) && Bound(s) && |ids| == |inputs| && FreshIds(s, ids)
    requires Accepted(inputs) == 0 || Accepted(inputs) == |inputs|
    ensures Bound(Pull(s, asset, operator, inputs, ids, found).store)
  {
    var s' := Pull(s, asset, operator, inputs, ids, found).store;
    if s' != s {
      AddedDisks(s, asset, operator, inputs, ids, Accepted(inputs));
      PulledBound(s, asset, s'.assets[asset], s'.disks);
      assert s'.assets == s.assets[asset := s'.assets[asset]];
    }
  }

  /** New disks of an asset that had none, recorded together with the move out of the pending state. */
  lemma PulledBound(s: Store, asset: Id, a: Asset, disks: map<Id, Disk>)
    requires JobsKnown(s.jobs, s.disks) && Bound(s)
    requires asset in s.assets && s.assets[asset].status == AssetPending && a.status == AssetDiskPulled
    requires forall d :: d in s.disks ==> d in disks && disks[d] == s.disks[d]
    requires forall d :: d in disks && d !in s.disks ==> disks[d].asset == asset && disks[d].status == DiskPulled
    ensures DisksPulled(disks, s.assets[asset := a]) && JobTerms(s.jobs, disks, s.approvals)
    ensures ScrapForces(disks, s.assets[asset := a])
  {
    assert forall d :: d in s.disks ==> s.disks[d].asset != asset;
    assert forall j :: j in s.jobs ==> disks[s.jobs[j].disk] == s.disks[s.jobs[j].disk];
  }

  /**
   * The pull that stops half-way, exactly. A call that passes the gate leaves disks recorded on an asset that
   * is still pending if and only if an input other than the first is the first incomplete one.
   */
  lemma PullStopsHalfWay(s: Store, asset: Id, operator: string, inputs: seq<DiskInput>, ids: seq<Id>, found: Option<Id>)
    requires |ids| == |inputs| && FreshIds(s, ids)
    requires operator != "" && |inputs| > 0 && asset in s.assets && s.assets[asset].status == AssetPending && Passes(s, found)
    ensures var s' := Pull(s, asset, operator, inputs, ids, found).store;
            (s'.disks != s.disks && asset in s'.assets && s'.assets[asset].status == AssetPending)
            <==> Complete(inputs[0]) && exists i :: 0 < i < |inputs| && !Complete(inputs[i])
  {
    var n := Accepted(inputs);
    SomeAdded(s, asset, operator, inputs, ids, n);
    var mid := AddDisks(s, asset, operator, inputs, ids, n);
    var s' := Pull(s, asset, operator, inputs, ids, found).store;
    if n < |inputs| {
      assert s' == mid;
    } else {
      assert s'.assets[asset].status == AssetDiskPulled;
    }
  }

  lemma SomeAdded(s: Store, asset: Id, operator: string, inputs: seq<DiskInput>, ids: seq<Id>, n: nat)
    requires |ids| == |inputs| && FreshIds(s, ids) && n <= |inputs| && asset in s.assets
    ensures var mid := AddDisks(s, asset, operator, inputs, ids, n);
            mid.assets == s.assets && (mid.disks != s.disks <==> n > 0)
  {
    AddedDisks(s, asset, operator, inputs, ids, n);
    var mid := AddDisks(s, asset, operator, inputs, ids, n);
    if n > 0 {
      assert ids[..n][0] == ids[0];
      assert ids[0] in mid.disks && ids[0] !in s.disks;
    }
  }

  // ---- jobs, scrapping, disposal ----

  lemma MoveAssetKeeps(s: Store, asset: Id, to: AssetStatus, actor: string, action: Action)
    requires Sound(s) && Gatekept(s) && ActionFor(to) == Some(action)
    requires asset in s.assets && s.assets[asset].status == AssetPending ==> to != AssetDiskPulled
    ensures var s' := TransitionAsset(s, asset, to, actor, action).store; Sound(s') && Gatekept(s')
  {
    var s' := TransitionAsset(s, asset, to, actor, action).store;
    TransitionAssetSound(s, asset, to, actor, action);
    if s' != s {
      assert s.assets[asset].status != AssetPending;
      GatedPut(s.assets, s.approvals, asset, s'.assets[asset]);
      DisposalTermsLonger(s.disposals, s.approvals, s.audit, s'.audit);
    }
  }

  lemma MoveAssetKeepsBound(s: Store, asset: Id, to: AssetStatus, actor: string, action: Action)
    requires Settled(s) && ActionFor(to) == Some(action)
    ensures var s' := TransitionAsset(s, asset, to, actor, action).store;
            Settled(s') && (ScrapForces(s.disks, s.assets) ==> ScrapForces(s'.disks, s'.assets))
  {
    var s' := TransitionAsset(s, asset, to, actor, action).store;
    if s' != s {
      AssetPutBound(s, asset, s'.assets[asset]);
    }
  }

  lemma AssetPutBound(s: Store, asset: Id, a: Asset)
    requires DisksPulled(s.disks, s.assets) && a.status != AssetPending
    requires asset in s.assets && Stage(a.status) >= Stage(s.assets[asset].status)
    ensures DisksPulled(s.disks, s.assets[asset := a])
    ensures ScrapForces(s.disks, s.assets) ==> ScrapForces(s.disks, s.assets[asset := a])
  {}

  lemma OrderKeeps(s: Store, disk: Id, standard: string, operator: string, id: Id, now: nat, found: Option<Id>)
    requires Sound(s) && Gatekept(s) && id !in s.jobs
    requires disk in s.disks ==> FoundActive(s, s.disks[disk].asset, found)
    ensures var s' := Order(s, disk, standard, operator, id, now, found).store;
            Sound(s') && Gatekept(s') && (Bound(s) ==> Bound(s'))
  {
    var s' := Order(s, disk, standard, operator, id, now, found).store;
    if s' != s {
      var job := Job(disk, STANDARDS[standard].code, JobPending, |JobsOf(s, disk)|, 0, 0, 0, operator, "", 0, now);
      OrderedKeeps(s, id, job, now, found.value);
      var created := CreateJob(s, id, job, now).store;
      ErasingKeeps(created, s.disks[disk].asset, operator);
      assert s' == created || s' == TransitionAsset(created, s.disks[disk].asset, AssetErasing, operator, StartErasing).store;
    }
  }

  lemma ErasingKeeps(s: Store, asset: Id, operator: string)
    requires Sound(s) && Gatekept(s)
    ensures var s' := TransitionAsset(s, asset, AssetErasing, operator, StartErasing).store;
            Sound(s') && Gatekept(s') && (Bound(s) ==> Bound(s'))
  {
    MoveAssetKeeps(s, asset, AssetErasing, operator, StartErasing);
    if Bound(s) {
      MoveAssetKeepsBound(s, asset, AssetErasing, operator, StartErasing);
    }
  }

  lemma OrderedKeeps(s: Store, id: Id, job: Job, now: nat, found: Id)
    requires Sound(s) && Gatekept(s) && id !in s.jobs && job.disk in s.disks
    requires ApprovedFor(s.approvals, s.disks[job.disk].asset, found) && s.approvals[found].standard == job.standard
    ensures var s' := CreateJob(s, id, job, now).store; Sound(s') && Gatekept(s') && (Bound(s) ==> Bound(s'))
  {
    var s' := CreateJob(s, id, job, now).store;
    CreateJobSound(s, id, job, now);
    DisposalTermsLonger(s.disposals, s.approvals, s.audit, s'.audit);
    if Bound(s) {
      JobTermsPut(s, id, s'.jobs[id], found);
    }
  }

  lemma JobTermsPut(s: Store, id: Id, job: Job, found: Id)
    requires OneActive(s.approvals) && JobTerms(s.jobs, s.disks, s.approvals) && job.disk in s.disks
    requires ApprovedFor(s.approvals, s.disks[job.disk].asset, found) && s.approvals[found].standard == job.standard
    ensures JobTerms(s.jobs[id := job], s.disks, s.approvals)
  {
    forall x | ApprovedFor(s.approvals, s.disks[job.disk].asset, x) ensures x == found {
      OnlyApproved(s, s.disks[job.disk].asset, found, x);
    }
  }

  lemma TerminateQuiet(s: Store, js: set<Id>)
    requires js <= s.jobs.Keys
    ensures Quiet(s, Terminate(s, js))
  {}

  lemma TerminateSound(s: Store, js: set<Id>)
    requires Sound(s) && js <= s.jobs.Keys
    ensures Sound(Terminate(s, js))
  {
    assert JobsKnown(Terminate(s, js).jobs, s.disks);
    assert Terminate(s, js).jobs.Keys == s.jobs.Keys;
  }

  /** The part of scrapping that comes before the asset moves. */
  function Ended(s: Store, disk: Id, operator: string): Store {
    var marked := UpdateDiskStatus(s, disk, DiskScrapped, operator).store;
    Terminate(marked, OpenJobs(marked, disk))
  }

  function ScrappedAway(s: Store, disk: Id, operator: string): Store
    requires disk in s.disks
  {
    TransitionAsset(Ended(s, disk, operator), s.disks[disk].asset, AssetScrapped, operator, ScrapAsset).store
  }

  lemma ScrapParts(s: Store, disk: Id, operator: string)
    ensures var s' := Scrap(s, disk, operator).store;
            s' == s || (disk in s.disks && (s' == Ended(s, disk, operator) || s' == ScrappedAway(s, disk, operator)))
  {}

  lemma EndedKeeps(s: Store, disk: Id, operator: string)
    requires Sound(s) && Gatekept(s)
    ensures Sound(Ended(s, disk, operator)) && Gatekept(Ended(s, disk, operator))
  {
    var marked := UpdateDiskStatus(s, disk, DiskScrapped, operator).store;
    MarkedKeeps(s, disk, operator);
    TerminateSound(marked, OpenJobs(marked, disk));
    TerminateQuiet(marked, OpenJobs(marked, disk));
    QuietKeepsGate(marked, Ended(s, disk, operator));
  }

  lemma MarkedKeeps(s: Store, disk: Id, operator: string)
    requires Sound(s) && Gatekept(s)
    ensures var marked := UpdateDiskStatus(s, disk, DiskScrapped, operator).store; Sound(marked) && Gatekept(marked)
  {
    var marked := UpdateDiskStatus(s, disk, DiskScrapped, operator).store;
    UpdateDiskStatusSound(s, disk, DiskScrapped, operator);
    DisposalTermsLonger(s.disposals, s.approvals, s.audit, marked.audit);
  }

  lemma DisksPutSettled(s: Store, disks: map<Id, Disk>)
    requires Settled(s) && disks.Keys == s.disks.Keys
    requires forall d :: d in s.disks ==> disks[d].asset == s.disks[d].asset
    ensures DisksPulled(disks, s.assets) && JobTerms(s.jobs, disks, s.approvals)
  {}

  lemma DiskStatusKeepsSettled(s: Store, disk: Id, status: DiskStatus, operator: string)
    requires Settled(s)
    ensures Settled(UpdateDiskStatus(s, disk, status, operator).store)
  {
    if disk in s.disks {
      DisksPutSettled(s, s.disks[disk := s.disks[disk].(status := status)]);
    }
  }

  lemma EndedSettled(s: Store, disk: Id, operator: string)
    requires Settled(s)
    ensures Settled(Ended(s, disk, operator))
  {
    var marked := UpdateDiskStatus(s, disk, DiskScrapped, operator).store;
    DiskStatusKeepsSettled(s, disk, DiskScrapped, operator);
    TerminateQuiet(marked, OpenJobs(marked, disk));
    QuietKeepsSettled(marked, Ended(s, disk, operator));
  }

  lemma ScrapKeeps(s: Store, disk: Id, operator: string)
    requires Sound(s) && Gatekept(s)
    ensures var s' := Scrap(s, disk, operator).store; Sound(s') && Gatekept(s')
  {
    ScrapParts(s, disk, operator);
    EndedKeeps(s, disk, operator);
    if disk in s.disks {
      ScrappedAwayKeeps(s, disk, operator);
    }
  }

  lemma ScrappedAwayKeeps(s: Store, disk: Id, operator: string)
    requires Sound(s) && Gatekept(s) && disk in s.disks
    ensures Sound(ScrappedAway(s, disk, operator)) && Gatekept(ScrappedAway(s, disk, operator))
  {
    EndedKeeps(s, disk, operator);
    MoveAssetKeeps(Ended(s, disk, operator), s.disks[disk].asset, AssetScrapped, operator, ScrapAsset);
  }

  lemma ScrapKeepsBound(s: Store, disk: Id, operator: string)
    requires Registered(s.assets) && Bound(s)
    ensures Bound(Scrap(s, disk, operator).store)
  {
    var s' := Scrap(s, disk, operator).store;
    if s' != s {
      var ended := Ended(s, disk, operator);
      EndedSettled(s, disk, operator);
      ScrapParts(s, disk, operator);
      MoveAssetKeepsBound(ended, s.disks[disk].asset, AssetScrapped, operator, ScrapAsset);
      ScrappedAsset(s, disk, operator);
      ScrapForced(s, disk, s'.assets);
    }
  }

  lemma ScrappedAsset(s: Store, disk: Id, operator: string)
    requires Registered(s.assets) && disk in s.disks && s.disks[disk].asset in s.assets
    requires s.assets[s.disks[disk].asset].status != AssetPending
    ensures var s' := Scrap(s, disk, operator).store; s' != s ==>
              && s'.disks == s.disks[disk := s.disks[disk].(status := DiskScrapped)]
              && AssetsAdvance(s.assets, s'.assets) && Stage(s'.assets[s.disks[disk].asset].status) >= 4
  {
    var s' := Scrap(s, disk, operator).store;
    var asset := s.disks[disk].asset;
    if s' != s {
      if s.assets[asset].status == AssetDiskPulled || s.assets[asset].status == AssetErasing {
        AssetPut(s.assets, asset, s.assets[asset].(status := AssetScrapped));
        assert s'.assets == s.assets[asset := s.assets[asset].(status := AssetScrapped)];
      } else {
        assert s'.assets == s.assets;
      }
    }
  }

  lemma ScrapForced(s: Store, disk: Id, assets: map<Id, Asset>)
    requires ScrapForces(s.disks, s.assets) && disk in s.disks && AssetsAdvance(s.assets, assets)
    requires s.disks[disk].asset in assets && Stage(assets[s.disks[disk].asset].status) >= 4
    requires DisksPulled(s.disks, s.assets)
    ensures ScrapForces(s.disks[disk := s.disks[disk].(status := DiskScrapped)], assets)
  {
    forall d | d in s.disks && s.disks[d].status == DiskScrapped ensures Stage(assets[s.disks[d].asset].status) >= 4 {
      assert s.disks[d].asset in s.assets;
    }
  }

  lemma ConfirmKeeps(s: Store, asset: Id, route: string, receiver: string, operator: string, found: Option<Id>)
    requires Sound(s) && Gatekept(s) && FoundActive(s, asset, found)
    ensures var s' := Confirm(s, asset, route, receiver, operator, found).store;
            Sound(s') && Gatekept(s') && (Bound(s) ==> Bound(s'))
  {
    ConfirmedStore(s, asset, route, receiver, operator, found);
    if Confirm(s, asset, route, receiver, operator, found).store != s {
      ConfirmedKeeps(s, asset, Disposal(route, receiver, operator), found.value);
    }
  }

  /** A disposal that was signed after the checks of the call. */
  lemma ConfirmedKeeps(s: Store, asset: Id, d: Disposal, found: Id)
    requires Sound(s) && Gatekept(s) && ApprovedFor(s.approvals, asset, found) && asset in s.assets
    requires d.route == s.approvals[found].route || (s.assets[asset].status == AssetScrapped && d.route == "destroy")
    requires SaveDisposal(s, asset, d).out == Ok
    ensures var s' := SaveDisposal(s, asset, d).store; Sound(s') && Gatekept(s') && (Bound(s) ==> Bound(s'))
  {
    var s' := SaveDisposal(s, asset, d).store;
    SaveDisposalSound(s, asset, d);
    DisposedGate(s, s', asset, found);
    if Bound(s) {
      AssetPutBound(s, asset, s'.assets[asset]);
    }
  }

  lemma ConfirmedStore(s: Store, asset: Id, route: string, receiver: string, operator: string, found: Option<Id>)
    requires FoundActive(s, asset, found)
    ensures var s' := Confirm(s, asset, route, receiver, operator, found).store;
            s' != s ==>
              && s' == SaveDisposal(s, asset, Disposal(route, receiver, operator)).store
              && SaveDisposal(s, asset, Disposal(route, receiver, operator)).out == Ok
              && asset in s.assets && found.Some? && ApprovedFor(s.approvals, asset, found.value)
              && s'.assets == s.assets[asset := s.assets[asset].(status := AssetDisposed)] && s'.approvals == s.approvals
              && s'.disks == s.disks && s'.jobs == s.jobs
              && s'.disposals == s.disposals[asset := Disposal(route, receiver, operator)] && s.audit <= s'.audit
              && (route == s.approvals[found.value].route || (s.assets[asset].status == AssetScrapped && route == "destroy"))
  {}

  lemma DisposedGate(s: Store, s': Store, asset: Id, found: Id)
    requires Sound(s) && Gatekept(s) && ApprovedFor(s.approvals, asset, found) && asset in s.assets && asset in s'.disposals
    requires s'.assets == s.assets[asset := s.assets[asset].(status := AssetDisposed)] && s'.approvals == s.approvals
    requires s'.disposals == s.disposals[asset := s'.disposals[asset]] && s.audit <= s'.audit
    requires s'.disposals[asset].route == s.approvals[found].route
             || (s.assets[asset].status == AssetScrapped && s'.disposals[asset].route == "destroy")
    ensures Gatekept(s')
  {
    GatedPut(s.assets, s.approvals, asset, s'.assets[asset]);
    if s.assets[asset].status == AssetScrapped {
      ScrappedHasRow(s.audit, asset);
    }
    DisposalPut(s, asset, s'.disposals[asset], found, s'.audit);
  }

  lemma DisposalPut(s: Store, asset: Id, d: Disposal, found: Id, log: seq<Audit>)
    requires OneActive(s.approvals) && DisposalTerms(s.disposals, s.approvals, s.audit) && s.audit <= log
    requires ApprovedFor(s.approvals, asset, found)
    requires d.route == s.approvals[found].route || (d.route == "destroy" && WasScrapped(s.audit, asset))
    ensures DisposalTerms(s.disposals[asset := d], s.approvals, log)
  {
    DisposalTermsLonger(s.disposals, s.approvals, s.audit, log);
    if WasScrapped(s.audit, asset) {
      ScrappedStays(s.audit, log, asset);
    }
    forall id | ApprovedFor(s.approvals, asset, id) ensures id == found {
      OnlyApproved(s, asset, id, found);
    }
  }

  /** Every service call keeps the gate, and its terms as long as it is not a pull that stops half-way. */
  lemma CallKeeps(s: Store, call: Call)
    requires Sound(s) && Gatekept(s) && Permitted(s, call)
    ensures Sound(Perform(s, call)) && Gatekept(Perform(s, call))
    ensures Bound(s) && Whole(call) ==> Bound(Perform(s, call))
  {
    match call
    case CallRegister(tag, owner, operator, id) => RegisterKeeps(s, tag, owner, operator, id);
    case CallSubmit(asset, standard, route, operator, id, version) =>
      SubmitKeeps(s, asset, standard, route, operator, id, version);
    case CallReview(id, reviewer, approve, note) => ReviewKeeps(s, id, reviewer, approve, note);
    case CallWithdraw(id, operator) => WithdrawKeeps(s, id, operator);
    case CallPull(asset, operator, inputs, ids, found) =>
      PullKeeps(s, asset, operator, inputs, ids, found);
      if Bound(s) && Whole(call) {
        PullKeepsBound(s, asset, operator, inputs, ids, found);
      }
    case CallOrder(disk, standard, operator, id, now, found) =>
      OrderKeeps(s, disk, standard, operator, id, now, found);
    case CallScrap(disk, operator) =>
      ScrapKeeps(s, disk, operator);
      if Bound(s) {
        ScrapKeepsBound(s, disk, operator);
      }
    case CallConfirm(asset, route, receiver, operator, found) =>
      ConfirmKeeps(s, asset, route, receiver, operator, found);
  }

  /** The request `id` is the same before and after. */
  predicate KeepsRequest(s: Store, s': Store, id: Id) {
    id in s.approvals && id in s'.approvals && s'.approvals[id] == s.approvals[id]
  }

  lemma SubmitFrozen(s: Store, asset: Id, standard: string, route: string, operator: string, new_: Id, version: nat, id: Id)
    requires new_ !in s.approvals && id in s.approvals
    ensures KeepsRequest(s, Submit(s, asset, standard, route, operator, new_, version).store, id)
  {
    var reply := Submit(s, asset, standard, route, operator, new_, version);
    assert KeepsRequest(s, reply.store, id);
  }

  lemma ReviewFrozen(s: Store, reviewed: Id, reviewer: string, approve: bool, note: string, id: Id)
    requires id in s.approvals && s.approvals[id].status == ApprovalApproved
    ensures KeepsRequest(s, Review(s, reviewed, reviewer, approve, note).store, id)
  {
    var reply := Review(s, reviewed, reviewer, approve, note);
    assert KeepsRequest(s, reply.store, id);
  }

  lemma WithdrawFrozen(s: Store, withdrawn: Id, operator: string, asset: Id, id: Id)
    requires asset in s.assets && s.assets[asset].status != AssetPending && ApprovedFor(s.approvals, asset, id)
    ensures KeepsRequest(s, Withdraw(s, withdrawn, operator).store, id)
  {
    var reply := Withdraw(s, withdrawn, operator);
    assert KeepsRequest(s, reply.store, id);
  }

  lemma PullFrozen(s: Store, asset: Id, operator: string, inputs: seq<DiskInput>, ids: seq<Id>, found: Option<Id>, id: Id)
    requires |ids| == |inputs| && FreshIds(s, ids) && id in s.approvals
    ensures KeepsRequest(s, Pull(s, asset, operator, inputs, ids, found).store, id)
  {
    if asset in s.assets {
      AddedDisks(s, asset, operator, inputs, ids, Accepted(inputs));
    }
  }

  lemma OrderFrozen(s: Store, disk: Id, standard: string, operator: string, j: Id, now: nat, found: Option<Id>, id: Id)
    requires id in s.approvals
    ensures KeepsRequest(s, Order(s, disk, standard, operator, j, now, found).store, id)
  {
    var reply := Order(s, disk, standard, operator, j, now, found);
    assert KeepsRequest(s, reply.store, id);
  }

  lemma ScrapFrozen(s: Store, disk: Id, operator: string, id: Id)
    requires id in s.approvals
    ensures KeepsRequest(s, Scrap(s, disk, operator).store, id)
  {
    var reply := Scrap(s, disk, operator);
    assert KeepsRequest(s, reply.store, id);
  }

  /** Once execution has begun no call changes the approved request: not withdrawn, not rejected, not replaced. */
  lemma ApprovalFrozen(s: Store, call: Call, asset: Id, id: Id)
    requires Permitted(s, call)
    requires asset in s.assets && s.assets[asset].status != AssetPending && ApprovedFor(s.approvals, asset, id)
    ensures KeepsRequest(s, Perform(s, call), id)
  {
    match call
    case CallRegister(tag, owner, operator, a) =>
    case CallSubmit(a, standard, route, operator, new_, version) =>
      SubmitFrozen(s, a, standard, route, operator, new_, version, id);
    case CallReview(r, reviewer, approve, note) =>
      ReviewFrozen(s, r, reviewer, approve, note, id);
    case CallWithdraw(w, operator) =>
      WithdrawFrozen(s, w, operator, asset, id);
    case CallPull(a, operator, inputs, ids, found) =>
      PullFrozen(s, a, operator, inputs, ids, found, id);
    case CallOrder(disk, standard, operator, j, now, found) =>
      OrderFrozen(s, disk, standard, operator, j, now, found, id);
    case CallScrap(disk, operator) =>
      ScrapFrozen(s, disk, operator, id);
    case CallConfirm(a, route, receiver, operator, found) =>
  }
}
