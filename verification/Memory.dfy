/** The in-process store: a record of maps and an append-only audit log, updated in place. */
module MemoryStore {
  import opened Domain
  import opened StoreModel

  /** What the claim loop holds after the jobs in `seen`. */
  ghost predicate PickedFrom(s: Store, seen: set<Id>, pick: Option<Id>, worker: string, staleAfter: nat, now: nat)
    requires seen <= s.jobs.Keys
  {
    match pick
    case None => forall j :: j in seen ==> !Eligible(s, j, worker, staleAfter, now)
    case Some(best) =>
      && best in seen && Eligible(s, best, worker, staleAfter, now)
      && ((forall o :: o in seen ==> !Orphan(s, o, worker, staleAfter, now)) ==>
            forall p :: p in seen && s.jobs[p].status == JobPending ==> s.jobs[best].createdAt <= s.jobs[p].createdAt)
  }

  class Memory {
    var assets: map<Id, Asset>
    var tags: map<string, Id>
    var disks: map<Id, Disk>
    var jobs: map<Id, Job>
    var checkpoints: map<Id, Checkpoint>
    var runs: map<Id, seq<Run>>
    var certs: map<string, Certificate>
    var disposals: map<Id, Disposal>
    var approvals: map<Id, Approval>
    var audit: seq<Audit>

    ghost function View(): Store
      reads this
    {
      Store(assets, tags, disks, jobs, checkpoints, runs, certs, disposals, approvals, audit)
    }

    constructor ()
      ensures View() == EMPTY
    {
      assets, tags, disks, jobs, checkpoints := map[], map[], map[], map[], map[];
      runs, certs, disposals, approvals, audit := map[], map[], map[], map[], [];
    }

    method AppendRow(actor: string, action: Action, kind: Entity, id: string)
      modifies this`audit
      ensures View() == old(View()).Log(actor, action, kind, id)
    {
      audit := audit + [Audit(actor, action, kind, id)];
    }

    method CreateAsset(id: Id, a: Asset) returns (out: Outcome)
      modifies this
      ensures Reply(View(), out) == StoreModel.CreateAsset(old(View()), id, a)
    {
      if a.tag in tags {
        return Conflict;
      }
      assets := assets[id := a];
      tags := tags[a.tag := id];
      AppendRow(a.registeredBy, RegisterAsset, AssetEntity, id);
      return Ok;
    }

    method TransitionAsset(id: Id, to: AssetStatus, actor: string, action: Action) returns (out: Outcome)
      modifies this
      ensures Reply(View(), out) == StoreModel.TransitionAsset(old(View()), id, to, actor, action)
    {
      if id !in assets {
        return NotFound;
      }
      var a := assets[id];
      if !CanTransitionAsset(a.status, to) {
        return Conflict;
      }
      assets := assets[id := a.(status := to)];
      AppendRow(actor, action, AssetEntity, id);
      return Ok;
    }

    method CreateDisk(id: Id, d: Disk) returns (out: Outcome)
      modifies this
      ensures Reply(View(), out) == StoreModel.CreateDisk(old(View()), id, d)
    {
      if d.asset !in assets {
        return NotFound;
      }
      disks := disks[id := d];
      return Ok;
    }

    method UpdateDiskStatus(id: Id, status: DiskStatus, actor: string) returns (out: Outcome)
      modifies this
      ensures Reply(View(), out) == StoreModel.UpdateDiskStatus(old(View()), id, status, actor)
    {
      if id !in disks {
        return NotFound;
      }
      disks := disks[id := disks[id].(status := status)];
      AppendRow(actor, SetDiskStatus(status), DiskEntity, id);
      return Ok;
    }

    method CreateJob(id: Id, j: Job, now: nat) returns (out: Outcome)
      modifies this
      ensures Reply(View(), out) == StoreModel.CreateJob(old(View()), id, j, now)
    {
      if j.disk !in disks {
        return NotFound;
      }
      jobs := jobs[id := j.(createdAt := now)];
      AppendRow(j.createdBy, CreateJobAction, JobEntity, id);
      return Ok;
    }

    /**
     * The claim loop. A map is visited in an arbitrary order, which can decide whether an orphan or a
     * pending job is picked; what never depends on it is stated by `Acquired`.
     */
    method AcquireNextJob(worker: string, staleAfter: nat, now: nat) returns (picked: Option<Id>)
      modifies this
      ensures Acquired(old(View()), worker, staleAfter, now, View(), picked)
    {
      picked := PickJob(worker, staleAfter, now);
      if picked.None? {
        return;
      }
      // still under the lock: nobody else can pick this job in between
      var job := jobs[picked.value];
      if job.status == JobPending {
        job := job.(status := JobRunning);
      }
      jobs := jobs[picked.value := job.(lockedBy := worker, lockedAt := now)];
      AppendRow(worker, AcquireJobAction, JobEntity, picked.value);
    }

    method PickJob(worker: string, staleAfter: nat, now: nat) returns (pick: Option<Id>)
      ensures PickedFrom(View(), jobs.Keys, pick, worker, staleAfter, now)
    {
      var startup := staleAfter == 0;
      pick := None;
      var rest := jobs.Keys;
      while rest != {}
        invariant rest <= jobs.Keys
        invariant PickedFrom(View(), jobs.Keys - rest, pick, worker, staleAfter, now)
        decreases rest
      {
        var j :| j in rest;
        ghost var seen := jobs.Keys - rest;
        rest := rest - {j};
        assert jobs.Keys - rest == seen + {j};
        match jobs[j].status {
          case JobPending =>
            // a pending job gives way to an older one, and takes the place of an orphan
            if pick.None? || jobs[pick.value].status != JobPending || jobs[j].createdAt < jobs[pick.value].createdAt {
              pick := Some(j);
            }
          case JobRunning =>
            var takes := Reclaims(j, worker, startup, staleAfter, now);
            if takes {
              pick := Some(j);
            }
          case JobVerifying =>
            var takes := Reclaims(j, worker, startup, staleAfter, now);
            if takes {
              pick := Some(j);
            }
          case _ =>
        }
      }
      assert jobs.Keys - rest == jobs.Keys;
    }

    method Reclaims(j: Id, worker: string, startup: bool, staleAfter: nat, now: nat) returns (takes: bool)
      requires j in jobs && InFlight(jobs[j].status) && startup == (staleAfter == 0)
      ensures takes == Orphan(View(), j, worker, staleAfter, now)
    {
      if jobs[j].lockedBy == worker {
        return false; // its own slots hold that job
      }
      if startup {
        return true;
      }
      var heartbeat := jobs[j].lockedAt;
      if j in checkpoints && checkpoints[j].heartbeat > heartbeat {
        heartbeat := checkpoints[j].heartbeat;
      }
      return heartbeat == 0 || now - heartbeat > staleAfter * SECOND;
    }

    method MarkJobRunning(j: Id, attempt: nat, now: nat) returns (out: Outcome)
      modifies this
      ensures Reply(View(), out) == StoreModel.MarkJobRunning(old(View()), j, attempt, now)
    {
      if j !in jobs {
        return NotFound;
      }
      jobs := jobs[j := jobs[j].(status := JobRunning, attempt := attempt, lockedAt := now)];
      return Ok;
    }

    method SaveProgress(j: Id, pass: nat, offset: nat, total: nat, status: JobStatus, now: nat) returns (out: Outcome)
      modifies this
      ensures Reply(View(), out) == StoreModel.SaveProgress(old(View()), j, pass, offset, total, status, now)
    {
      if j !in jobs {
        return NotFound;
      }
      jobs := jobs[j := jobs[j].(pass := pass, done := offset, total := total, status := status)];
      checkpoints := checkpoints[j := Checkpoint(pass, offset, now)];
      return Ok;
    }

    method CompleteJob(j: Id, status: JobStatus, run: Run) returns (out: Outcome)
      modifies this
      ensures Reply(View(), out) == StoreModel.CompleteJob(old(View()), j, status, run)
    {
      if j !in jobs {
        return NotFound;
      }
      var attempt := jobs[j].attempt;
      jobs := jobs[j := jobs[j].(status := status)];
      runs := runs[j := (if j in runs then runs[j] else []) + [run.(attempt := attempt)]];
      return Ok;
    }

    method RecordRun(j: Id, run: Run)
      modifies this
      ensures View() == StoreModel.RecordRun(old(View()), j, run).store
    {
      runs := runs[j := (if j in runs then runs[j] else []) + [run]];
    }

    method SaveCertificate(certNo: string, c: Certificate) returns (out: Outcome)
      modifies this
      ensures Reply(View(), out) == StoreModel.SaveCertificate(old(View()), certNo, c)
    {
      if certNo in certs {
        return Conflict; // a number is never issued twice
      }
      certs := certs[certNo := c];
      AppendRow(c.operator, IssueCertificate, CertificateEntity, certNo);
      return Ok;
    }

    method SaveDisposal(asset: Id, d: Disposal) returns (out: Outcome)
      modifies this
      ensures Reply(View(), out) == StoreModel.SaveDisposal(old(View()), asset, d)
    {
      if asset in disposals {
        return Conflict;
      }
      if asset !in assets {
        return NotFound;
      }
      var a := assets[asset];
      if !CanTransitionAsset(a.status, AssetDisposed) {
        return Conflict;
      }
      disposals := disposals[asset := d];
      assets := assets[asset := a.(status := AssetDisposed)];
      AppendRow(d.operator, SignDisposal, AssetEntity, asset);
      return Ok;
    }

    /** Visits the approvals in an arbitrary order and stops at the first active one of the asset. */
    method GetActiveApproval(asset: Id) returns (found: Option<Id>)
      ensures FoundActive(View(), asset, found)
    {
      var rest := approvals.Keys;
      while rest != {}
        invariant rest <= approvals.Keys
        invariant forall id :: id in approvals && id !in rest ==> !ActiveFor(View(), asset, id)
        decreases rest
      {
        var id :| id in rest;
        if approvals[id].asset == asset && Active(approvals[id].status) {
          return Some(id);
        }
        rest := rest - {id};
      }
      return None;
    }

    method CreateApproval(id: Id, a: Approval) returns (out: Outcome)
      modifies this
      ensures Reply(View(), out) == StoreModel.CreateApproval(old(View()), id, a)
    {
      if a.asset !in assets {
        return NotFound;
      }
      var found := GetActiveApproval(a.asset);
      if found.Some? {
        return Conflict;
      }
      approvals := approvals[id := a];
      AppendRow(a.applicant, SubmitApproval, ApprovalEntity, id);
      return Ok;
    }

    method ReviewApproval(id: Id, to: ApprovalStatus, reviewer: string, note: string) returns (out: Outcome)
      modifies this
      ensures Reply(View(), out) == StoreModel.ReviewApproval(old(View()), id, to, reviewer, note)
    {
      if id !in approvals {
        return NotFound;
      }
      var a := approvals[id];
      if to != ApprovalApproved && to != ApprovalRejected {
        return Conflict;
      }
      if !CanTransitionApproval(a.status, to) {
        return Conflict;
      }
      approvals := approvals[id := a.(status := to, reviewer := reviewer, note := note)];
      var action := ApproveApproval;
      if to == ApprovalRejected {
        action := RejectApproval;
      }
      AppendRow(reviewer, action, ApprovalEntity, id);
      return Ok;
    }

    method WithdrawApproval(id: Id, actor: string) returns (out: Outcome)
      modifies this
      ensures Reply(View(), out) == StoreModel.WithdrawApproval(old(View()), id, actor)
    {
      if id !in approvals {
        return NotFound;
      }
      var a := approvals[id];
      if !CanTransitionApproval(a.status, ApprovalWithdrawn) {
        return Conflict;
      }
      // an approved request can only be withdrawn before execution
      if a.status == ApprovalApproved {
        if a.asset in assets && assets[a.asset].status != AssetPending {
          return Conflict;
        }
      }
      approvals := approvals[id := a.(status := ApprovalWithdrawn)];
      AppendRow(actor, WithdrawApprovalAction, ApprovalEntity, id);
      return Ok;
    }

    method AppendAudit(row: Audit)
      modifies this
      ensures View() == StoreModel.AppendAudit(old(View()), row).store
    {
      audit := audit + [row];
    }
  }
}
