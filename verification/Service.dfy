/** The service calls as the program runs them: checks and store operations one after the other. */
module ServiceCalls {
  import opened Domain
  import opened StoreModel
  import opened MemoryStore
  import Rules = ServiceRules

  lemma SomeFound(s: Store, asset: Id) returns (found: Option<Id>)
    ensures FoundActive(s, asset, found)
  {
    if HasActive(s, asset) {
      var id :| id in s.approvals && ActiveFor(s, asset, id);
      found := Some(id);
    } else {
      found := None;
    }
  }

  class Service {
    const st: Memory

    constructor (st: Memory)
      ensures this.st == st
    {
      this.st := st;
    }

    method RegisterAsset(tag: string, owner: string, operator: string, id: Id) returns (out: Outcome)
      modifies st
      ensures Reply(st.View(), out) == Rules.Register(old(st.View()), tag, owner, operator, id)
    {
      if tag == "" {
        return Conflict;
      }
      if operator == "" {
        return Conflict;
      }
      out := st.CreateAsset(id, Asset(tag, owner, AssetPending, operator));
    }

    /** The version loop: the highest version among the earlier requests of the asset, plus one. */
    method NextVersion(asset: Id) returns (version: nat)
      ensures Rules.IsNextVersion(st.View(), asset, version)
    {
      version := 1;
      var rest := st.approvals.Keys;
      while rest != {}
        invariant rest <= st.approvals.Keys && version >= 1
        invariant forall id :: id in Rules.ApprovalsOf(st.View(), asset) && id !in rest ==> st.approvals[id].version < version
        invariant version == 1 ||
                  exists id :: id in Rules.ApprovalsOf(st.View(), asset) && st.approvals[id].version == version - 1
        decreases rest
      {
        var id :| id in rest;
        rest := rest - {id};
        if st.approvals[id].asset == asset {
          assert id in Rules.ApprovalsOf(st.View(), asset);
          if st.approvals[id].version >= version {
            version := st.approvals[id].version + 1;
          }
        }
      }
    }

    method SubmitApproval(asset: Id, standard: string, route: string, operator: string, id: Id)
      returns (out: Outcome, ghost version: nat)
      modifies st
      ensures Rules.IsNextVersion(old(st.View()), asset, version)
      ensures Reply(st.View(), out) == Rules.Submit(old(st.View()), asset, standard, route, operator, id, version)
    {
      var next := NextVersion(asset);
      version := next;
      if operator == "" {
        return Conflict, version;
      }
      if asset !in st.assets {
        return NotFound, version;
      }
      var a := st.assets[asset];
      if a.owner != "" && operator != a.owner {
        return Conflict, version;
      }
      if a.status != AssetPending {
        return Conflict, version;
      }
      var std := GetStandard(standard);
      if std.None? {
        return Conflict, version;
      }
      if route != "reuse" && route != "resale" && route != "destroy" {
        return Conflict, version;
      }
      var active := st.GetActiveApproval(asset);
      if active.Some? {
        return Conflict, version;
      }
      out := st.CreateApproval(id, Approval(asset, std.value.code, route, operator, ApprovalPending, "", "", next));
    }

    method ReviewApproval(id: Id, reviewer: string, approve: bool, note: string) returns (out: Outcome)
      modifies st
      ensures Reply(st.View(), out) == Rules.Review(old(st.View()), id, reviewer, approve, note)
    {
      if reviewer == "" {
        return Conflict;
      }
      if id !in st.approvals {
        return NotFound;
      }
      var ap := st.approvals[id];
      if ap.status != ApprovalPending {
        return Conflict;
      }
      if reviewer == ap.applicant {
        return Conflict; // nobody reviews their own request
      }
      var to := ApprovalApproved;
      if !approve {
        to := ApprovalRejected;
        if note == "" {
          return Conflict;
        }
      }
      out := st.ReviewApproval(id, to, reviewer, note);
    }

    method WithdrawApproval(id: Id, operator: string) returns (out: Outcome)
      modifies st
      ensures Reply(st.View(), out) == Rules.Withdraw(old(st.View()), id, operator)
    {
      if operator == "" {
        return Conflict;
      }
      if id !in st.approvals {
        return NotFound;
      }
      if operator != st.approvals[id].applicant {
        return Conflict;
      }
      out := st.WithdrawApproval(id, operator);
    }

    method ApprovedApproval(asset: Id) returns (ok: bool, found: Option<Id>)
      ensures FoundActive(st.View(), asset, found) && ok == Rules.Passes(st.View(), found)
    {
      found := st.GetActiveApproval(asset);
      if found.None? {
        return false, found;
      }
      ok := st.approvals[found.value].status == ApprovalApproved;
    }

    method PullDisks(asset: Id, operator: string, inputs: seq<Rules.DiskInput>, ids: seq<Id>)
      returns (out: Outcome, ghost found: Option<Id>)
      requires |ids| == |inputs|
      modifies st
      ensures FoundActive(old(st.View()), asset, found)
      ensures Reply(st.View(), out) == Rules.Pull(old(st.View()), asset, operator, inputs, ids, found)
    {
      found := SomeFound(st.View(), asset);
      if operator == "" {
        return Conflict, found;
      }
      if |inputs| == 0 {
        return Conflict, found;
      }
      if asset !in st.assets {
        return NotFound, found;
      }
      if st.assets[asset].status != AssetPending {
        return Conflict, found;
      }
      var ok, active := ApprovedApproval(asset);
      found := active;
      if !ok {
        return Conflict, found;
      }
      ghost var s := st.View();
      for i := 0 to |inputs|
        invariant i <= Rules.Accepted(inputs)
        invariant st.View() == Rules.AddDisks(s, asset, operator, inputs, ids, i) && st.assets == s.assets
      {
        AcceptedAt(inputs, i);
        if inputs[i].serial == "" || inputs[i].path == "" {
          return Conflict, found; // the disks before this one stay recorded
        }
        var created := st.CreateDisk(ids[i], Disk(asset, inputs[i].serial, inputs[i].path, DiskPulled, operator));
        if created != Ok {
          return created, found;
        }
      }
      out := st.TransitionAsset(asset, AssetDiskPulled, operator, PullDisksAction);
    }

    method CreateErasureJob(disk: Id, standard: string, operator: string, id: Id, now: nat)
      returns (out: Outcome, ghost found: Option<Id>)
      modifies st
      ensures disk in old(st.disks) ==> FoundActive(old(st.View()), old(st.disks[disk].asset), found)
      ensures Reply(st.View(), out) == Rules.Order(old(st.View()), disk, standard, operator, id, now, found)
    {
      found := None;
      if disk in st.disks {
        found := SomeFound(st.View(), st.disks[disk].asset);
      }
      if operator == "" {
        return Conflict, found;
      }
      var std := GetStandard(standard);
      if std.None? {
        return Conflict, found;
      }
      if disk !in st.disks {
        return NotFound, found;
      }
      var d := st.disks[disk];
      if d.status != DiskPulled && d.status != DiskFailed {
        return Conflict, found;
      }
      var ok, active := ApprovedApproval(d.asset);
      found := active;
      if !ok {
        return Conflict, found;
      }
      if st.approvals[active.value].standard != std.value.code {
        return Conflict, found;
      }
      // jobs of a disk are numbered by their predecessors
      var prior := set j | j in st.jobs && st.jobs[j].disk == disk;
      assert prior == JobsOf(st.View(), disk);
      out := st.CreateJob(id, Job(disk, std.value.code, JobPending, |prior|, 0, 0, 0, operator, "", 0, now), now);
      if out != Ok {
        return;
      }
      if d.status == DiskPulled {
        var _ := st.TransitionAsset(d.asset, AssetErasing, operator, StartErasing);
      }
    }

    method ScrapDisk(disk: Id, operator: string) returns (out: Outcome)
      modifies st
      ensures Reply(st.View(), out) == Rules.Scrap(old(st.View()), disk, operator)
    {
      if operator == "" {
        return Conflict;
      }
      if disk !in st.disks {
        return NotFound;
      }
      var d := st.disks[disk];
      if d.status != DiskFailed && d.status != DiskPulled {
        return Conflict;
      }
      var marked := st.UpdateDiskStatus(disk, DiskScrapped, operator);
      TerminateOpenJobs(disk);
      if d.asset !in st.assets {
        return NotFound;
      }
      var a := st.assets[d.asset];
      if a.status == AssetDiskPulled || a.status == AssetErasing {
        var _ := st.TransitionAsset(d.asset, AssetScrapped, operator, ScrapAsset);
      }
      return Ok;
    }

    /** The job loop of ScrapDisk: every pending or running job of the disk is completed as failed. */
    method TerminateOpenJobs(disk: Id)
      modifies st
      ensures st.View() == Rules.Terminate(old(st.View()), Rules.OpenJobs(old(st.View()), disk))
    {
      ghost var s := st.View();
      ghost var ended: set<Id> := {};
      var listed := st.jobs;
      var rest := listed.Keys;
      TerminateNone(s);
      while rest != {}
        invariant rest <= listed.Keys && listed == s.jobs
        invariant ended == Rules.OpenJobs(s, disk) - rest
        invariant st.View() == Rules.Terminate(s, ended)
        decreases rest
      {
        var j :| j in rest;
        rest := rest - {j};
        if listed[j].disk == disk && (listed[j].status == JobPending || listed[j].status == JobRunning) {
          Rules.TerminateOne(s, ended, j);
          var _ := st.CompleteJob(j, JobFailed, Rules.TERMINATED);
          ended := ended + {j};
        }
      }
      assert ended == Rules.OpenJobs(s, disk);
    }

    method ConfirmDisposal(asset: Id, route: string, receiver: string, operator: string)
      returns (out: Outcome, ghost found: Option<Id>)
      modifies st
      ensures FoundActive(old(st.View()), asset, found)
      ensures Reply(st.View(), out) == Rules.Confirm(old(st.View()), asset, route, receiver, operator, found)
    {
      found := SomeFound(st.View(), asset);
      if operator == "" {
        return Conflict, found;
      }
      if route != "reuse" && route != "resale" && route != "destroy" {
        return Conflict, found;
      }
      if receiver == "" {
        return Conflict, found;
      }
      if asset !in st.assets {
        return NotFound, found;
      }
      var a := st.assets[asset];
      match a.status {
        case AssetErasureDone =>
        case AssetScrapped =>
        case _ => return Conflict, found;
      }
      var ok, active := ApprovedApproval(asset);
      found := active;
      if !ok {
        return Conflict, found;
      }
      var scrappedDestroy := a.status == AssetScrapped && route == "destroy";
      if route != st.approvals[active.value].route && !scrappedDestroy {
        return Conflict, found;
      }
      out := st.SaveDisposal(asset, Disposal(route, receiver, operator));
    }
  }

  lemma TerminateNone(s: Store)
    ensures Rules.Terminate(s, {}) == s
  {
    var t := Rules.Terminate(s, {});
    assert t.jobs == s.jobs && t.runs == s.runs;
  }

  lemma AcceptedAt(inputs: seq<Rules.DiskInput>, i: nat)
    requires i <= Rules.Accepted(inputs) && i < |inputs|
    ensures i < Rules.Accepted(inputs) <==> Rules.Complete(inputs[i])
  {}
}
