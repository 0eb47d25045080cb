/** When execution begins: the asset of every job has moved on to erasing, and every disk in use has a job. */
module Starts {
  import opened Domain
  import opened StoreModel
  import opened History
  import opened ServiceRules
  import opened RunnerModel
  import opened Gate
  import opened CallEffects
  import opened Finality
  import opened Upkeep
  import opened SystemModel
  import opened DiskHistory
  import opened Scrapping
  import opened Verdicts
  import opened Guarantees

  // ---- jobs stay, and only an order adds one ----

  ghost predicate JobsRemain(jobs: map<Id, Job>, jobs': map<Id, Job>) {
    forall j :: j in jobs ==> j in jobs' && jobs'[j].disk == jobs[j].disk
  }

  lemma MoveJobsRemain(s: Store, r: Runner, move: Move, s': Store, pc: Pc)
    requires Final(s) && Stands(s, r) && Step(s, r, move, s', pc)
    ensures JobsRemain(s.jobs, s'.jobs) && s'.jobs.Keys == s.jobs.Keys
  {
    MoveKeepsFinal(s, r, move, s', pc);
    OwnDiskStays(s, r, move, s', pc);
    OthersRemain(s, s', r.job);
  }

  lemma OthersRemain(s: Store, s': Store, own: Id)
    requires Others(s, s', own) && (own in s.jobs && own in s'.jobs ==> s'.jobs[own].disk == s.jobs[own].disk)
    ensures JobsRemain(s.jobs, s'.jobs) && s'.jobs.Keys == s.jobs.Keys
  {
    forall j | j in s.jobs ensures j in s'.jobs && s'.jobs[j].disk == s.jobs[j].disk {
      assert j != own ==> Untouched(s, s', j);
    }
  }

  lemma CallJobsRemain(s: Store, call: Call)
    requires Final(s) && s.checkpoints.Keys <= s.jobs.Keys && Permitted(s, call)
    ensures JobsRemain(s.jobs, Perform(s, call).jobs)
    ensures !call.CallOrder? ==> Perform(s, call).jobs.Keys == s.jobs.Keys
  {
    CallKeepsFinal(s, call);
    forall j | j in s.jobs ensures j in Perform(s, call).jobs && Perform(s, call).jobs[j].disk == s.jobs[j].disk {
      assert Untouched(s, Perform(s, call), j);
    }
    if !call.CallOrder? {
      NoNewJobs(s, call);
    }
  }

  predicate Orders(event: Event) {
    event.ServiceCall? && event.call.CallOrder?
  }

  lemma RunJobsRemain(sys: System, g: nat, move: Move, pc: Pc, sys': System)
    requires Final(sys.store) && AllStand(sys.store, sys.runs) && Next(sys, MoveRun(g, move, pc), sys')
    ensures JobsRemain(sys.store.jobs, sys'.store.jobs) && sys'.store.jobs.Keys == sys.store.jobs.Keys
  {
    assert Stands(sys.store, sys.runs[g]);
    MoveJobsRemain(sys.store, sys.runs[g], move, sys'.store, pc);
  }

  lemma ClaimJobsRemain(sys: System, event: Event, sys': System)
    requires Next(sys, event, sys') && !event.ServiceCall? && !event.MoveRun?
    ensures JobsRemain(sys.store.jobs, sys'.store.jobs) && sys'.store.jobs.Keys == sys.store.jobs.Keys
  {
    if !event.ClaimJob? {
      assert sys'.store.jobs == sys.store.jobs;
    }
  }

  lemma StepJobsRemain(sys: System, event: Event, sys': System)
    requires Inv(sys) && Next(sys, event, sys')
    ensures JobsRemain(sys.store.jobs, sys'.store.jobs)
    ensures !Orders(event) ==> sys'.store.jobs.Keys == sys.store.jobs.Keys
  {
    KnownCheckpoints(sys);
    if event.ServiceCall? {
      Called(sys, event, sys');
      CallJobsRemain(sys.store, event.call);
    } else if event.MoveRun? {
      RunJobsRemain(sys, event.run, event.move, event.pc, sys');
    } else {
      ClaimJobsRemain(sys, event, sys');
    }
  }

  lemma KnownCheckpoints(sys: System)
    requires Inv(sys)
    ensures Final(sys.store) && sys.store.checkpoints.Keys <= sys.store.jobs.Keys && AllStand(sys.store, sys.runs)
  {}

  // ---- every disk in use has a job ----

  predicate HasJob(jobs: map<Id, Job>, disk: Id) {
    exists j :: j in jobs && jobs[j].disk == disk
  }

  predicate InUse(status: DiskStatus) {
    status == DiskErasing || status == DiskVerified || status == DiskFailed
  }

  ghost predicate Tried(disks: map<Id, Disk>, jobs: map<Id, Job>) {
    forall d :: d in disks && InUse(disks[d].status) ==> HasJob(jobs, d)
  }

  ghost predicate ChecksTried(checks: map<nat, Check>, jobs: map<Id, Job>) {
    forall v :: v in checks ==> HasJob(jobs, checks[v].disk)
  }

  lemma HasJobStill(jobs: map<Id, Job>, jobs': map<Id, Job>, disk: Id)
    requires JobsRemain(jobs, jobs') && HasJob(jobs, disk)
    ensures HasJob(jobs', disk)
  {
    var j :| j in jobs && jobs[j].disk == disk;
    assert j in jobs' && jobs'[j].disk == disk;
  }

  /** A step writes one of these statuses only to a disk that has a job. */
  lemma WritesTried(sys: System, event: Event, sys': System, disk: Id)
    requires AllStand(sys.store, sys.runs) && ChecksTried(sys.checks, sys.store.jobs) && Next(sys, event, sys')
    requires Updates(sys, event, disk).Some? && InUse(Updates(sys, event, disk).value)
    ensures HasJob(sys.store.jobs, disk)
  {
    if event.MoveRun? {
      var r := sys.runs[event.run];
      assert Stands(sys.store, r);
      assert sys.store.jobs[r.job].disk == disk;
    } else {
      assert event.CheckFails? && sys.checks[event.check].disk == disk;
    }
  }

  lemma StepKeepsTried(sys: System, event: Event, sys': System)
    requires Inv(sys) && Tried(sys.store.disks, sys.store.jobs) && ChecksTried(sys.checks, sys.store.jobs) && Next(sys, event, sys')
    ensures Tried(sys'.store.disks, sys'.store.jobs)
  {
    StepJobsRemain(sys, event, sys');
    forall d | d in sys'.store.disks && InUse(sys'.store.disks[d].status) ensures HasJob(sys'.store.jobs, d) {
      StepWrites(sys, event, sys', d);
      if Updates(sys, event, d).Some? {
        WritesTried(sys, event, sys', d);
      }
      HasJobStill(sys.store.jobs, sys'.store.jobs, d);
    }
  }

  lemma ChecksBefore(sys: System, event: Event, sys': System, v: nat)
    requires ChecksTried(sys.checks, sys.store.jobs) && Next(sys, event, sys') && v in sys'.checks
    ensures HasJob(sys.store.jobs, sys'.checks[v].disk)
  {
    if event.BeginCheck? && event.check == v {
      SomeJob(sys.store, event.disk);
    }
  }

  lemma SomeJob(s: Store, disk: Id)
    requires JobsOf(s, disk) != {}
    ensures HasJob(s.jobs, disk)
  {
    var j :| j in JobsOf(s, disk);
    assert j in s.jobs && s.jobs[j].disk == disk;
  }

  lemma StepKeepsChecksTried(sys: System, event: Event, sys': System)
    requires Inv(sys) && ChecksTried(sys.checks, sys.store.jobs) && Next(sys, event, sys')
    ensures ChecksTried(sys'.checks, sys'.store.jobs)
  {
    StepJobsRemain(sys, event, sys');
    forall v | v in sys'.checks ensures HasJob(sys'.store.jobs, sys'.checks[v].disk) {
      ChecksBefore(sys, event, sys', v);
      HasJobStill(sys.store.jobs, sys'.store.jobs, sys'.checks[v].disk);
    }
  }

  // ---- the asset of every job has begun ----

  /** The asset is being erased, or has left erasing behind. */
  predicate Underway(assets: map<Id, Asset>, asset: Id) {
    asset in assets && Stage(assets[asset].status) >= Stage(AssetErasing)
  }

  ghost predicate AllUnderway(s: Store) {
    forall j :: j in s.jobs && s.jobs[j].disk in s.disks ==> Underway(s.assets, s.disks[s.jobs[j].disk].asset)
  }

  lemma OrderBegins(s: Store, disk: Id, standard: string, operator: string, id: Id, now: nat, found: Option<Id>)
    requires References(s) && DisksPulled(s.disks, s.assets) && Tried(s.disks, s.jobs) && AllUnderway(s)
    requires Order(s, disk, standard, operator, id, now, found).out == Ok
    ensures disk in s.disks && Underway(Order(s, disk, standard, operator, id, now, found).store.assets, s.disks[disk].asset)
  {
    OrderEffect(s, disk, standard, operator, id, now, found);
    if s.disks[disk].status != DiskPulled {
      assert InUse(s.disks[disk].status);
      assert HasJob(s.jobs, disk);
    }
  }

  lemma OrderKeepsUnderway(s: Store, disk: Id, standard: string, operator: string, id: Id, now: nat, found: Option<Id>)
    requires References(s) && DisksPulled(s.disks, s.assets) && Tried(s.disks, s.jobs) && AllUnderway(s)
    ensures AllUnderway(Order(s, disk, standard, operator, id, now, found).store)
  {
    var s' := Order(s, disk, standard, operator, id, now, found).store;
    if Order(s, disk, standard, operator, id, now, found).out == Ok {
      OrderEffect(s, disk, standard, operator, id, now, found);
      OrderBegins(s, disk, standard, operator, id, now, found);
      OneMoreUnderway(s, s', id);
    }
  }

  lemma OneMoreUnderway(s: Store, s': Store, id: Id)
    requires AllUnderway(s) && s'.disks == s.disks && id in s'.jobs && s'.jobs == s.jobs[id := s'.jobs[id]]
    requires forall a :: Underway(s.assets, a) ==> Underway(s'.assets, a)
    requires s'.jobs[id].disk in s.disks ==> Underway(s'.assets, s.disks[s'.jobs[id].disk].asset)
    ensures AllUnderway(s')
  {
    forall j | j in s'.jobs && s'.jobs[j].disk in s'.disks ensures Underway(s'.assets, s'.disks[s'.jobs[j].disk].asset) {
      assert j != id ==> j in s.jobs && s'.jobs[j] == s.jobs[j];
    }
  }

  lemma OthersKeepUnderway(s: Store, s': Store)
    requires AllUnderway(s) && JobsKnown(s.jobs, s.disks) && JobsRemain(s.jobs, s'.jobs) && s'.jobs.Keys == s.jobs.Keys
    requires DisksStay(s.disks, s'.disks) && AssetsAdvance(s.assets, s'.assets)
    ensures AllUnderway(s')
  {
    forall j | j in s'.jobs && s'.jobs[j].disk in s'.disks ensures Underway(s'.assets, s'.disks[s'.jobs[j].disk].asset) {
      assert s'.jobs[j].disk == s.jobs[j].disk && s'.disks[s.jobs[j].disk].asset == s.disks[s.jobs[j].disk].asset;
      assert Underway(s.assets, s.disks[s.jobs[j].disk].asset);
    }
  }

  /** Execution has begun for everything that is worked on. */
  ghost predicate Started(sys: System) {
    Tried(sys.store.disks, sys.store.jobs) && ChecksTried(sys.checks, sys.store.jobs) && AllUnderway(sys.store)
  }

  lemma StepKeepsUnderway(sys: System, event: Event, sys': System)
    requires Inv(sys) && Bound(sys.store) && Started(sys) && Next(sys, event, sys')
    ensures AllUnderway(sys'.store)
  {
    Referenced(sys);
    if Orders(event) {
      Called(sys, event, sys');
      var c := event.call;
      OrderKeepsUnderway(sys.store, c.disk, c.standard, c.operator, c.id, c.now, c.found);
    } else {
      StepForward(sys, event, sys');
      StepJobsRemain(sys, event, sys');
      OthersKeepUnderway(sys.store, sys'.store);
    }
  }

  lemma Referenced(sys: System)
    requires Inv(sys)
    ensures References(sys.store)
  {}

  lemma StartedStep(t: Trace, n: nat)
    requires t.Legal() && n < |t.events| && Inv(t.states[n]) && Bound(t.states[n].store) && Started(t.states[n])
    ensures Started(t.states[n + 1])
  {
    assert t.StepAt(n);
    StepKeepsTried(t.states[n], t.events[n], t.states[n + 1]);
    StepKeepsChecksTried(t.states[n], t.events[n], t.states[n + 1]);
    StepKeepsUnderway(t.states[n], t.events[n], t.states[n + 1]);
  }

  lemma NothingStarted(sys: System)
    requires Initial(sys)
    ensures Started(sys)
  {}

  lemma {:induction false} EverythingStarted(t: Trace, n: nat)
    requires t.Valid() && n < |t.states| && t.WholeUpTo(n)
    ensures Started(t.states[n])
  {
    if n == 0 {
      NothingStarted(t.states[0]);
    } else {
      EverythingStarted(t, n - 1);
      EveryStateKept(t, n - 1);
      StartedStep(t, n - 1);
    }
  }

  /** The job's disk and asset are on record, and the asset is being erased or has left erasing behind. */
  ghost predicate AssetBegun(s: Store, j: Id)
    requires j in s.jobs
  {
    && s.jobs[j].disk in s.disks && s.disks[s.jobs[j].disk].asset in s.assets
    && s.assets[s.disks[s.jobs[j].disk].asset].status in {AssetErasing, AssetErasureDone, AssetScrapped, AssetDisposed}
  }

  lemma UnderwayStatus(s: Store, j: Id)
    requires References(s) && AllUnderway(s) && j in s.jobs
    ensures AssetBegun(s, j)
  {
    assert Underway(s.assets, s.disks[s.jobs[j].disk].asset);
  }

  /**
   * While no pull has stopped half-way, the asset of every job is being erased or has left erasing behind: nothing is
   * wiped for an asset that has not begun, and the run that is done last finds the asset where it can move it on.
   */
  lemma JobsAssetHasBegun(t: Trace, n: nat, j: Id)
    requires t.Valid() && n < |t.states| && t.WholeUpTo(n) && j in t.states[n].store.jobs
    ensures AssetBegun(t.states[n].store, j)
  {
    EverythingStarted(t, n);
    EveryStateKept(t, n);
    Referenced(t.states[n]);
    UnderwayStatus(t.states[n].store, j);
  }

  /** The first job of a pulled disk takes the asset to erasing at once, and says so in the log. */
  lemma OrderStartsErasing(t: Trace, n: nat, disk: Id, standard: string, operator: string, id: Id, now: nat, found: Option<Id>)
    requires t.Valid() && n < |t.events| && t.events[n] == ServiceCall(CallOrder(disk, standard, operator, id, now, found))
    requires Order(t.states[n].store, disk, standard, operator, id, now, found).out == Ok
    requires var s := t.states[n].store;
             disk in s.disks && s.disks[disk].status == DiskPulled && s.disks[disk].asset in s.assets
             && s.assets[s.disks[disk].asset].status == AssetDiskPulled
    ensures var asset := t.states[n].store.disks[disk].asset; var s' := t.states[n + 1].store;
            && asset in s'.assets && s'.assets[asset].status == AssetErasing
            && |s'.audit| > 0 && s'.audit[|s'.audit| - 1] == Audit(operator, StartErasing, AssetEntity, asset)
            && id in s'.jobs && s'.jobs[id].disk == disk && s'.jobs[id].standard == standard && s'.jobs[id].status == JobPending
  {
    assert t.StepAt(n);
    OrderEffect(t.states[n].store, disk, standard, operator, id, now, found);
  }
}
