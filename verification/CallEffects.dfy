/**
 * What each service call decides and does, read off the store alone: when exactly it is accepted, what is different
 * afterwards, and that nothing else is. A call that is refused leaves the store as it was, but for a pull that stops
 * half-way.
 */
module CallEffects {
  import opened Domain
  import opened StoreModel
  import opened History
  import opened ServiceRules
  import opened Gate

  /** Somebody has approved the request `x` of the asset. */
  predicate ApprovedIs(s: Store, asset: Id, x: Id) {
    x in s.approvals && s.approvals[x].asset == asset && s.approvals[x].status == ApprovalApproved
  }

  /** With at most one active request per asset, the gate opens exactly for an approved one, and for no other. */
  lemma GateOpens(s: Store, asset: Id, found: Option<Id>)
    requires OneActive(s.approvals) && FoundActive(s, asset, found)
    ensures forall x :: ApprovedIs(s, asset, x) <==> Passes(s, found) && found == Some(x)
  {
    forall x | ApprovedIs(s, asset, x) ensures found == Some(x) {
      assert ActiveFor(s, asset, x);
      OnlyApproved(s, asset, x, found.value);
    }
  }

  // ---- assets and requests ----

  lemma RegisterEffect(s: Store, tag: string, owner: string, operator: string, id: Id)
    ensures var r := Register(s, tag, owner, operator, id);
            && (r.out == Ok <==> tag != "" && operator != "" && tag !in s.tags)
            && (r.out != Ok ==> r.store == s)
            && (r.out == Ok ==>
                  r.store == s.(assets := s.assets[id := Asset(tag, owner, AssetPending, operator)],
                                tags := s.tags[tag := id],
                                audit := s.audit + [Audit(operator, RegisterAsset, AssetEntity, id)]))
  {}

  /** Filed by the owner, if there is one, while the asset is pending and has no request that is waiting or approved. */
  lemma SubmitEffect(s: Store, asset: Id, standard: string, route: string, operator: string, id: Id, version: nat)
    ensures var r := Submit(s, asset, standard, route, operator, id, version);
            && (r.out == Ok <==>
                  && operator != "" && asset in s.assets && s.assets[asset].status == AssetPending
                  && (s.assets[asset].owner == "" || s.assets[asset].owner == operator)
                  && standard in {"nist_clear", "nist_purge", "dod_3pass", "sample_quick"}
                  && route in {"reuse", "resale", "destroy"}
                  && forall x :: x in s.approvals && s.approvals[x].asset == asset ==>
                       s.approvals[x].status == ApprovalRejected || s.approvals[x].status == ApprovalWithdrawn)
            && (r.out != Ok ==> r.store == s)
            && (r.out == Ok ==>
                  r.store == s.(approvals := s.approvals[id := Approval(asset, standard, route, operator, ApprovalPending, "", "", version)],
                                audit := s.audit + [Audit(operator, SubmitApproval, ApprovalEntity, id)]))
  {
    if standard in STANDARDS {
      BuiltInStandards(standard);
    }
  }

  /** Decided by somebody else than the applicant, once, with a note if it is a refusal; the verdict is the reviewer's. */
  lemma ReviewEffect(s: Store, id: Id, reviewer: string, approve: bool, note: string)
    ensures var r := Review(s, id, reviewer, approve, note);
            && (r.out == Ok <==>
                  && id in s.approvals && s.approvals[id].status == ApprovalPending
                  && reviewer != "" && reviewer != s.approvals[id].applicant && (approve || note != ""))
            && (r.out != Ok ==> r.store == s)
            && (r.out == Ok ==>
                  var verdict := if approve then ApprovalApproved else ApprovalRejected;
                  var action := if approve then ApproveApproval else RejectApproval;
                  r.store == s.(approvals := s.approvals[id := s.approvals[id].(status := verdict, reviewer := reviewer, note := note)],
                                audit := s.audit + [Audit(reviewer, action, ApprovalEntity, id)]))
  {}

  /** By the applicant; an approved request only before execution. Withdrawing twice is accepted, and only logged again. */
  lemma WithdrawEffect(s: Store, id: Id, operator: string)
    ensures var r := Withdraw(s, id, operator);
            && (r.out == Ok <==>
                  && operator != "" && id in s.approvals && s.approvals[id].applicant == operator
                  && s.approvals[id].status != ApprovalRejected
                  && (s.approvals[id].status == ApprovalApproved && s.approvals[id].asset in s.assets ==>
                        s.assets[s.approvals[id].asset].status == AssetPending))
            && (r.out != Ok ==> r.store == s)
            && (r.out == Ok ==>
                  r.store == s.(approvals := s.approvals[id := s.approvals[id].(status := ApprovalWithdrawn)],
                                audit := s.audit + [Audit(operator, WithdrawApprovalAction, ApprovalEntity, id)]))
  {}

  // ---- disks ----

  /** The disks that were recorded are those of the first `n` inputs, as given; every other disk is as it was. */
  ghost predicate DisksRecorded(disks: map<Id, Disk>, disks': map<Id, Disk>, asset: Id, operator: string,
                           inputs: seq<DiskInput>, ids: seq<Id>, n: nat)
    requires |ids| == |inputs| && n <= |inputs|
  {
    && (forall i :: 0 <= i < n ==> ids[i] in disks' && disks'[ids[i]] == Disk(asset, inputs[i].serial, inputs[i].path, DiskPulled, operator))
    && forall d :: d !in ids[..n] ==> (d in disks' <==> d in disks) && (d in disks' ==> disks'[d] == disks[d])
  }

  lemma RecordedMore(disks: map<Id, Disk>, mid: map<Id, Disk>, asset: Id, operator: string,
                     inputs: seq<DiskInput>, ids: seq<Id>, n: nat)
    requires |ids| == |inputs| && n < |inputs| && DisksRecorded(disks, mid, asset, operator, inputs, ids, n)
    requires forall i :: 0 <= i < n ==> ids[i] != ids[n]
    ensures DisksRecorded(disks, mid[ids[n] := Disk(asset, inputs[n].serial, inputs[n].path, DiskPulled, operator)],
                     asset, operator, inputs, ids, n + 1)
  {
    assert ids[..n + 1] == ids[..n] + [ids[n]];
  }

  lemma AddedLast(s: Store, asset: Id, operator: string, inputs: seq<DiskInput>, ids: seq<Id>, n: nat)
    requires asset in s.assets && |ids| == |inputs| && 0 < n <= |inputs| && FreshIds(s, ids)
    ensures AddDisks(s, asset, operator, inputs, ids, n).disks
            == AddDisks(s, asset, operator, inputs, ids, n - 1).disks
                 [ids[n - 1] := Disk(asset, inputs[n - 1].serial, inputs[n - 1].path, DiskPulled, operator)]
  {
    AddedDisks(s, asset, operator, inputs, ids, n - 1);
  }

  lemma {:induction false} AddedRows(s: Store, asset: Id, operator: string, inputs: seq<DiskInput>, ids: seq<Id>, n: nat)
    requires asset in s.assets && |ids| == |inputs| && n <= |inputs| && FreshIds(s, ids)
    ensures DisksRecorded(s.disks, AddDisks(s, asset, operator, inputs, ids, n).disks, asset, operator, inputs, ids, n)
    decreases n
  {
    if n > 0 {
      AddedRows(s, asset, operator, inputs, ids, n - 1);
      var mid := AddDisks(s, asset, operator, inputs, ids, n - 1).disks;
      RecordedMore(s.disks, mid, asset, operator, inputs, ids, n - 1);
      AddedLast(s, asset, operator, inputs, ids, n);
    }
  }

  /** Accepted once the request is approved, while the asset is pending, with complete inputs only. */
  lemma PullAccepted(s: Store, asset: Id, operator: string, inputs: seq<DiskInput>, ids: seq<Id>, found: Option<Id>)
    requires OneActive(s.approvals) && FoundActive(s, asset, found) && |ids| == |inputs| && FreshIds(s, ids)
    ensures Pull(s, asset, operator, inputs, ids, found).out == Ok <==>
              && operator != "" && |inputs| > 0 && asset in s.assets && s.assets[asset].status == AssetPending
              && (exists x :: ApprovedIs(s, asset, x))
              && forall i :: 0 <= i < |inputs| ==> inputs[i].serial != "" && inputs[i].path != ""
  {
    GateOpens(s, asset, found);
    if asset in s.assets {
      AddedDisks(s, asset, operator, inputs, ids, Accepted(inputs));
    }
  }

  /** Then every disk is on record and the asset has moved on. */
  lemma PullEffect(s: Store, asset: Id, operator: string, inputs: seq<DiskInput>, ids: seq<Id>, found: Option<Id>)
    requires |ids| == |inputs| && FreshIds(s, ids) && Pull(s, asset, operator, inputs, ids, found).out == Ok
    ensures asset in s.assets
    ensures var s' := Pull(s, asset, operator, inputs, ids, found).store;
            && DisksRecorded(s.disks, s'.disks, asset, operator, inputs, ids, |inputs|)
            && s' == s.(disks := s'.disks,
                        assets := s.assets[asset := s.assets[asset].(status := AssetDiskPulled)],
                        audit := s.audit + [Audit(operator, PullDisksAction, AssetEntity, asset)])
  {
    AddedDisks(s, asset, operator, inputs, ids, |inputs|);
    AddedRows(s, asset, operator, inputs, ids, |inputs|);
  }

  /** With an approved request and an incomplete input, the disks before it are on record, and nothing else is different. */
  lemma HalfPullEffect(s: Store, asset: Id, operator: string, inputs: seq<DiskInput>, ids: seq<Id>, found: Option<Id>)
    returns (n: nat)
    requires |ids| == |inputs| && FreshIds(s, ids) && Pull(s, asset, operator, inputs, ids, found).out != Ok
    requires operator != "" && asset in s.assets && s.assets[asset].status == AssetPending && Passes(s, found) && |inputs| > 0
    ensures n < |inputs| && (inputs[n].serial == "" || inputs[n].path == "")
    ensures forall i :: 0 <= i < n ==> inputs[i].serial != "" && inputs[i].path != ""
    ensures var s' := Pull(s, asset, operator, inputs, ids, found).store;
            DisksRecorded(s.disks, s'.disks, asset, operator, inputs, ids, n) && s' == s.(disks := s'.disks)
  {
    n := Accepted(inputs);
    AddedDisks(s, asset, operator, inputs, ids, n);
    AddedRows(s, asset, operator, inputs, ids, n);
  }

  /** Accepted for a pulled or failed disk, by the standard that was approved for its asset. */
  lemma OrderAccepted(s: Store, disk: Id, standard: string, operator: string, id: Id, now: nat, found: Option<Id>)
    requires OneActive(s.approvals) && (disk in s.disks ==> FoundActive(s, s.disks[disk].asset, found))
    ensures var r := Order(s, disk, standard, operator, id, now, found);
            && (r.out == Ok <==>
                  && operator != "" && disk in s.disks && (s.disks[disk].status == DiskPulled || s.disks[disk].status == DiskFailed)
                  && standard in {"nist_clear", "nist_purge", "dod_3pass", "sample_quick"}
                  && exists x :: ApprovedIs(s, s.disks[disk].asset, x) && s.approvals[x].standard == standard)
            && (r.out != Ok ==> r.store == s)
  {
    if standard in STANDARDS {
      BuiltInStandards(standard);
    }
    if disk in s.disks {
      GateOpens(s, s.disks[disk].asset, found);
    }
  }

  /** The asset of the disk is past its pull, and not yet past erasing. */
  predicate Begins(s: Store, disk: Id)
    requires disk in s.disks
  {
    var asset := s.disks[disk].asset;
    && s.disks[disk].status == DiskPulled && asset in s.assets
    && (s.assets[asset].status == AssetDiskPulled || s.assets[asset].status == AssetErasing)
  }

  /** The job is numbered by its predecessors; the first job of a pulled disk moves the asset to erasing and logs it. */
  lemma OrderEffect(s: Store, disk: Id, standard: string, operator: string, id: Id, now: nat, found: Option<Id>)
    requires Order(s, disk, standard, operator, id, now, found).out == Ok
    ensures disk in s.disks
    ensures var asset := s.disks[disk].asset;
            var attempt := |set k | k in s.jobs && s.jobs[k].disk == disk|;
            var ordered := s.(jobs := s.jobs[id := Job(disk, standard, JobPending, attempt, 0, 0, 0, operator, "", 0, now)],
                              audit := s.audit + [Audit(operator, CreateJobAction, JobEntity, id)]);
            Order(s, disk, standard, operator, id, now, found).store
            == if Begins(s, disk) then
                 ordered.(assets := s.assets[asset := s.assets[asset].(status := AssetErasing)],
                          audit := ordered.audit + [Audit(operator, StartErasing, AssetEntity, asset)])
               else ordered
  {
    BuiltInStandards(standard);
    assert JobsOf(s, disk) == set k | k in s.jobs && s.jobs[k].disk == disk;
  }

  /** What scrapping does to one job: of its own disk, a pending or running one fails with one more run. */
  ghost predicate EndedBy(s: Store, s': Store, disk: Id, j: Id)
    requires j in s.jobs
  {
    && j in s'.jobs
    && if s.jobs[j].disk == disk && (s.jobs[j].status == JobPending || s.jobs[j].status == JobRunning) then
         && s'.jobs[j] == s.jobs[j].(status := JobFailed)
         && |RunsOf(s', j)| == |RunsOf(s, j)| + 1 && RunsOf(s, j) <= RunsOf(s', j)
         && RunsOf(s', j)[|RunsOf(s, j)|].verdict == RunFailed && RunsOf(s', j)[|RunsOf(s, j)|].attempt == s.jobs[j].attempt
       else s'.jobs[j] == s.jobs[j] && RunsOf(s', j) == RunsOf(s, j)
  }

  /** Accepted for a pulled or failed disk. */
  lemma ScrapAccepted(s: Store, disk: Id, operator: string)
    requires DisksKnown(s.disks, s.assets)
    ensures var r := Scrap(s, disk, operator);
            && (r.out == Ok <==>
                  operator != "" && disk in s.disks && (s.disks[disk].status == DiskPulled || s.disks[disk].status == DiskFailed))
            && (r.out != Ok ==> r.store == s)
  {}

  /** It marks the disk, ends the open jobs of this disk only, and takes the asset off the erasure path. */
  lemma ScrapEffect(s: Store, disk: Id, operator: string)
    requires Scrap(s, disk, operator).out == Ok
    ensures disk in s.disks && s.disks[disk].asset in s.assets
    ensures var s' := Scrap(s, disk, operator).store;
            var asset := s.disks[disk].asset;
            var ended := s.(disks := s.disks[disk := s.disks[disk].(status := DiskScrapped)], jobs := s'.jobs, runs := s'.runs,
                            audit := s.audit + [Audit(operator, SetDiskStatus(DiskScrapped), DiskEntity, disk)]);
            s' == if s.assets[asset].status == AssetDiskPulled || s.assets[asset].status == AssetErasing then
                    ended.(assets := s.assets[asset := s.assets[asset].(status := AssetScrapped)],
                           audit := ended.audit + [Audit(operator, ScrapAsset, AssetEntity, asset)])
                  else ended
  {}

  lemma ScrapEndsJobs(s: Store, disk: Id, operator: string)
    requires Scrap(s, disk, operator).out == Ok
    ensures var s' := Scrap(s, disk, operator).store;
            s'.jobs.Keys == s.jobs.Keys && forall j :: j in s.jobs ==> EndedBy(s, s', disk, j)
  {
    ScrapParts(s, disk, operator);
    var s' := Scrap(s, disk, operator).store;
    var marked := UpdateDiskStatus(s, disk, DiskScrapped, operator).store;
    var js := OpenJobs(marked, disk);
    EndedJobs(s, s', disk, operator);
    forall j | j in s.jobs ensures EndedBy(s, s', disk, j) {
      TerminateEnds(marked, js, j);
    }
  }

  lemma EndedJobs(s: Store, s': Store, disk: Id, operator: string)
    requires disk in s.disks && (s' == Ended(s, disk, operator) || s' == ScrappedAway(s, disk, operator))
    ensures s'.jobs == Ended(s, disk, operator).jobs && s'.runs == Ended(s, disk, operator).runs
  {}

  lemma TerminateEnds(s: Store, js: set<Id>, j: Id)
    requires js <= s.jobs.Keys && j in s.jobs
    ensures var s' := Terminate(s, js);
            && j in s'.jobs && s'.jobs[j] == (if j in js then s.jobs[j].(status := JobFailed) else s.jobs[j])
            && RunsOf(s', j) == RunsOf(s, j) + if j in js then [TERMINATED.(attempt := s.jobs[j].attempt)] else []
  {}

  // ---- disposal ----

  /** Signed once, after erasure by the approved route, or after a scrap by that route or by destruction. */
  lemma ConfirmAccepted(s: Store, asset: Id, route: string, receiver: string, operator: string, found: Option<Id>)
    requires OneActive(s.approvals) && Disposals(s.assets, s.disposals) && FoundActive(s, asset, found)
    ensures Confirm(s, asset, route, receiver, operator, found).out == Ok <==>
              && operator != "" && receiver != "" && route in {"reuse", "resale", "destroy"} && asset in s.assets
              && (s.assets[asset].status == AssetErasureDone || s.assets[asset].status == AssetScrapped)
              && exists x :: ApprovedIs(s, asset, x)
                             && (s.approvals[x].route == route
                                 || (route == "destroy" && s.assets[asset].status == AssetScrapped))
  {
    GateOpens(s, asset, found);
  }

  lemma ConfirmEffect(s: Store, asset: Id, route: string, receiver: string, operator: string, found: Option<Id>)
    ensures var r := Confirm(s, asset, route, receiver, operator, found);
            && (r.out != Ok ==> r.store == s)
            && (r.out == Ok ==>
                  && asset in s.assets
                  && r.store == s.(disposals := s.disposals[asset := Disposal(route, receiver, operator)],
                                   assets := s.assets[asset := s.assets[asset].(status := AssetDisposed)],
                                   audit := s.audit + [Audit(operator, SignDisposal, AssetEntity, asset)]))
  {}
}
