/**
 * Scrapping a disk, over time. A scrapped disk is meant to stay out of use. Whether it does is decided when it is
 * scrapped: by what is under way on the disk at that moment, and by nothing that happens later.
 */
module Scrapping {
  import opened Domain
  import opened StoreModel
  import opened History
  import opened ServiceRules
  import opened RunnerModel
  import opened Gate
  import opened Finality
  import opened Upkeep
  import opened SystemModel
  import opened DiskHistory

  predicate IsScrapped(s: Store, disk: Id) {
    disk in s.disks && s.disks[disk].status == DiskScrapped
  }

  /** The run will still write the status of its disk, unless it is cut short. */
  predicate UpdateAhead(pc: Pc) {
    pc == Claimed || pc == Marked || pc == Working || pc == FailingDisk || pc.Saved?
  }

  ghost predicate NoRunAhead(runs: map<nat, Runner>, disk: Id) {
    forall g :: g in runs && runs[g].jobRow.disk == disk ==> !UpdateAhead(runs[g].pc)
  }

  ghost predicate NoCheckAhead(checks: map<nat, Check>, disk: Id) {
    forall v :: v in checks && checks[v].disk == disk ==> checks[v].pc == Logging
  }

  ghost predicate NoneVerifying(jobs: map<Id, Job>, disk: Id) {
    forall j :: j in jobs && jobs[j].disk == disk ==> jobs[j].status != JobVerifying
  }

  ghost predicate JobsOver(jobs: map<Id, Job>, disk: Id) {
    forall j :: j in jobs && jobs[j].disk == disk ==> jobs[j].status == JobVerified || jobs[j].status == JobFailed
  }

  /**
   * What decides, when a disk is scrapped: no live run on it still has a disk update ahead, no job of it is verifying
   * (scrapping does not end such a job), and no re-verification of it is waiting or reading.
   */
  ghost predicate NothingUnderWay(sys: System, disk: Id) {
    NoRunAhead(sys.runs, disk) && NoneVerifying(sys.store.jobs, disk) && NoCheckAhead(sys.checks, disk)
  }

  /** In every continuation of the system from this state the disk is scrapped. */
  ghost predicate StaysScrapped(sys: System, disk: Id) {
    forall t: Trace :: t.Legal() && t.states[0] == sys ==> IsScrapped(t.Last().store, disk)
  }

  // ---- nothing under way: it stays scrapped ----

  ghost predicate Retired(sys: System, disk: Id) {
    && IsScrapped(sys.store, disk) && JobsOver(sys.store.jobs, disk)
    && NoRunAhead(sys.runs, disk) && NoCheckAhead(sys.checks, disk)
  }

  lemma NotWritten(sys: System, event: Event, sys': System, disk: Id)
    requires Retired(sys, disk) && Next(sys, event, sys')
    ensures Updates(sys, event, disk) == None
  {
    match event
    case MoveRun(g, move, pc) =>
    case ServiceCall(call) =>
    case _ =>
  }

  lemma StaysOnShelf(sys: System, event: Event, sys': System, disk: Id)
    requires Inv(sys) && Retired(sys, disk) && Next(sys, event, sys')
    ensures IsScrapped(sys'.store, disk)
  {
    NotWritten(sys, event, sys', disk);
    StepWrites(sys, event, sys', disk);
  }

  lemma NoRunComes(sys: System, event: Event, sys': System, disk: Id)
    requires JobsOver(sys.store.jobs, disk) && NoRunAhead(sys.runs, disk) && Next(sys, event, sys')
    ensures NoRunAhead(sys'.runs, disk)
  {
    if event.MoveRun? {
      RunComesNoCloser(sys, event.run, event.move, event.pc, sys', disk);
    }
  }

  lemma RunComesNoCloser(sys: System, g: nat, move: Move, pc: Pc, sys': System, disk: Id)
    requires NoRunAhead(sys.runs, disk) && Next(sys, MoveRun(g, move, pc), sys')
    ensures NoRunAhead(sys'.runs, disk)
  {
    if sys.runs[g].jobRow.disk == disk {
      LatePcs(sys.store, sys.runs[g], move, sys'.store, pc);
    }
  }

  lemma LatePcs(s: Store, r: Runner, move: Move, s': Store, pc: Pc)
    requires !UpdateAhead(r.pc) && Step(s, r, move, s', pc)
    ensures !UpdateAhead(pc)
  {}

  lemma NoCheckComes(sys: System, event: Event, sys': System, disk: Id)
    requires IsScrapped(sys.store, disk) && NoCheckAhead(sys.checks, disk) && Next(sys, event, sys')
    ensures NoCheckAhead(sys'.checks, disk)
  {}

  /** A run past its disk update leaves a verified job verified. */
  lemma LateRunLeavesJob(s: Store, r: Runner, move: Move, s': Store, pc: Pc)
    requires Stands(s, r) && !UpdateAhead(r.pc) && Step(s, r, move, s', pc)
    ensures r.job in s'.jobs && s'.jobs[r.job] == s.jobs[r.job]
  {
    if move == AssetDone {
      AssetsForward(s, r.diskRow.asset, AssetErasureDone, r.name, ErasureVerified);
    }
  }

  lemma MoveLeavesJobs(s: Store, r: Runner, move: Move, s': Store, pc: Pc, disk: Id)
    requires Final(s) && Stands(s, r) && Step(s, r, move, s', pc) && JobsOver(s.jobs, disk)
    requires r.jobRow.disk == disk ==> !UpdateAhead(r.pc)
    ensures JobsOver(s'.jobs, disk)
  {
    MoveKeepsFinal(s, r, move, s', pc);
    if r.jobRow.disk == disk {
      LateRunLeavesJob(s, r, move, s', pc);
    } else {
      OwnDiskStays(s, r, move, s', pc);
    }
    OthersOver(s, s', r.job, disk);
  }

  lemma OthersOver(s: Store, s': Store, own: Id, disk: Id)
    requires JobsOver(s.jobs, disk) && Others(s, s', own)
    requires own in s'.jobs && s'.jobs[own].disk == disk ==> own in s.jobs && s'.jobs[own] == s.jobs[own]
    ensures JobsOver(s'.jobs, disk)
  {
    forall j | j in s'.jobs && s'.jobs[j].disk == disk
      ensures s'.jobs[j].status == JobVerified || s'.jobs[j].status == JobFailed
    {
      assert j != own ==> Untouched(s, s', j);
    }
  }

  lemma CalmOver(s: Store, s': Store, disk: Id)
    requires JobsOver(s.jobs, disk) && Calm(s, s') && s'.jobs.Keys == s.jobs.Keys
    ensures JobsOver(s'.jobs, disk)
  {
    forall j | j in s'.jobs && s'.jobs[j].disk == disk
      ensures s'.jobs[j].status == JobVerified || s'.jobs[j].status == JobFailed
    {
      assert Untouched(s, s', j);
    }
  }

  lemma OwnDiskStays(s: Store, r: Runner, move: Move, s': Store, pc: Pc)
    requires Knows(s, r) && Step(s, r, move, s', pc)
    ensures r.job in s'.jobs ==> s'.jobs[r.job].disk == r.jobRow.disk
  {
    if RowMove(move) {
      RowMoveOnly(s, r, move, s', pc);
    } else if move == AssetDone {
      AssetsForward(s, r.diskRow.asset, AssetErasureDone, r.name, ErasureVerified);
    }
  }

  lemma OrderAdds(s: Store, disk: Id, standard: string, operator: string, id: Id, now: nat, found: Option<Id>, scrapped: Id)
    requires IsScrapped(s, scrapped) && JobsOver(s.jobs, scrapped)
    ensures JobsOver(Order(s, disk, standard, operator, id, now, found).store.jobs, scrapped)
  {
    var s' := Order(s, disk, standard, operator, id, now, found).store;
    if s' != s {
      var job := Job(disk, STANDARDS[standard].code, JobPending, |JobsOf(s, disk)|, 0, 0, 0, operator, "", 0, now);
      AssetsForward(CreateJob(s, id, job, now).store, s.disks[disk].asset, AssetErasing, operator, StartErasing);
    }
  }

  lemma NoNewJobs(s: Store, call: Call)
    requires !call.CallOrder? && Permitted(s, call)
    ensures Perform(s, call).jobs.Keys == s.jobs.Keys
  {
    match call
    case CallPull(asset, operator, inputs, ids, found) => PullOnlyAdds(s, asset, operator, inputs, ids, found);
    case CallScrap(disk, operator) => ScrapOnlyEnds(s, disk, operator);
    case _ =>
  }

  lemma CallLeavesJobs(s: Store, call: Call, disk: Id)
    requires Final(s) && s.checkpoints.Keys <= s.jobs.Keys && Permitted(s, call)
    requires IsScrapped(s, disk) && JobsOver(s.jobs, disk)
    ensures JobsOver(Perform(s, call).jobs, disk)
  {
    if call.CallOrder? {
      OrderAdds(s, call.disk, call.standard, call.operator, call.id, call.now, call.found, disk);
    } else {
      NoNewJobs(s, call);
      CallKeepsFinal(s, call);
      CalmOver(s, Perform(s, call), disk);
    }
  }

  lemma NoJobReopens(sys: System, event: Event, sys': System, disk: Id)
    requires Final(sys.store) && sys.store.checkpoints.Keys <= sys.store.jobs.Keys && AllStand(sys.store, sys.runs)
    requires Retired(sys, disk) && Next(sys, event, sys')
    ensures JobsOver(sys'.store.jobs, disk)
  {
    if event.MoveRun? {
      RunLeavesJobs(sys, event.run, event.move, event.pc, sys', disk);
    } else if event.ServiceCall? {
      CallLeavesJobs(sys.store, event.call, disk);
    } else {
      ClaimLeavesJobs(sys, event, sys', disk);
    }
  }

  lemma RunLeavesJobs(sys: System, g: nat, move: Move, pc: Pc, sys': System, disk: Id)
    requires Final(sys.store) && AllStand(sys.store, sys.runs)
    requires JobsOver(sys.store.jobs, disk) && NoRunAhead(sys.runs, disk) && Next(sys, MoveRun(g, move, pc), sys')
    ensures JobsOver(sys'.store.jobs, disk)
  {
    assert Stands(sys.store, sys.runs[g]);
    MoveLeavesJobs(sys.store, sys.runs[g], move, sys'.store, pc, disk);
  }

  lemma ClaimLeavesJobs(sys: System, event: Event, sys': System, disk: Id)
    requires JobsOver(sys.store.jobs, disk) && Next(sys, event, sys') && !event.MoveRun? && !event.ServiceCall?
    ensures JobsOver(sys'.store.jobs, disk)
  {
    if !event.ClaimJob? {
      assert sys'.store.jobs == sys.store.jobs;
    }
  }

  lemma RetiredStep(sys: System, event: Event, sys': System, disk: Id)
    requires Inv(sys) && Retired(sys, disk) && Next(sys, event, sys')
    ensures Inv(sys') && Retired(sys', disk)
  {
    NextKeepsInv(sys, event, sys');
    StaysOnShelf(sys, event, sys', disk);
    NoRunComes(sys, event, sys', disk);
    NoCheckComes(sys, event, sys', disk);
    NoJobReopens(sys, event, sys', disk);
  }

  ghost predicate Shelved(sys: System, disk: Id) {
    Inv(sys) && Retired(sys, disk)
  }

  lemma {:induction false} RetiredForever(t: Trace, n: nat, disk: Id)
    requires t.Legal() && n < |t.states| && Shelved(t.states[0], disk)
    ensures Shelved(t.states[n], disk)
  {
    if n > 0 {
      RetiredForever(t, n - 1, disk);
      RetiredNext(t, n - 1, disk);
    }
  }

  lemma RetiredNext(t: Trace, n: nat, disk: Id)
    requires t.Legal() && n < |t.events| && Shelved(t.states[n], disk)
    ensures Shelved(t.states[n + 1], disk)
  {
    assert t.StepAt(n);
    RetiredStep(t.states[n], t.events[n], t.states[n + 1], disk);
  }
}
