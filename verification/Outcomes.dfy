/**
 * What a run that nobody disturbs leaves in the store: how far it has come can be read off the rows of its job, its disk
 * and its asset, and there are exactly so many ways in which it can end.
 */
module Outcomes {
  import opened Domain
  import opened StoreModel
  import opened History
  import opened RunnerModel
  import opened Finality
  import Upkeep

  /** The job and the disk of the run have these statuses, and all other disks are as they were. */
  ghost predicate Rows(s0: Store, s: Store, r: Runner, job: JobStatus, disk: DiskStatus) {
    && r.job in s.jobs && s.jobs[r.job].status == job
    && r.jobRow.disk in s0.disks && s.disks == s0.disks[r.jobRow.disk := s0.disks[r.jobRow.disk].(status := disk)]
  }

  ghost predicate Newest(s: Store, r: Runner, verdict: Verdict) {
    var runs := RunsOf(s, r.job);
    |runs| > 0 && runs[|runs| - 1].verdict == verdict
  }

  /** The newest run of the job says how many bytes were wrong. */
  ghost predicate SaysMismatch(s: Store, r: Runner) {
    Newest(s, r, RunFailed) && var runs := RunsOf(s, r.job); runs[|runs| - 1].mismatches > 0
  }

  ghost predicate SaysClean(s: Store, r: Runner) {
    Newest(s, r, RunVerified) && var runs := RunsOf(s, r.job); runs[|runs| - 1].mismatches == 0
  }

  ghost predicate HasIssued(s: Store, r: Runner) {
    exists n :: n in s.certs && s.certs[n].job == r.job
  }

  ghost predicate Untried(s0: Store, s: Store, r: Runner) {
    s.disks == s0.disks && r.job in s.jobs && InFlight(s.jobs[r.job].status)
  }

  /** How far the run has come, in the rows it has written; `s0` is the store at the claim. */
  ghost predicate Shows(s0: Store, s: Store, r: Runner) {
    && s.assets == s0.assets
    && match r.pc
       case Claimed => Untried(s0, s, r)
       case Marked => Untried(s0, s, r) && s.jobs[r.job].status == JobRunning
       case Working => Rows(s0, s, r, JobRunning, DiskErasing) || Rows(s0, s, r, JobVerifying, DiskErasing)
       case FailingDisk => Rows(s0, s, r, JobFailed, DiskErasing) && SaysMismatch(s, r)
       case Saved(_) => Rows(s0, s, r, JobVerified, DiskErasing)
       case DiskMarked(_) => Rows(s0, s, r, JobVerified, DiskVerified)
       case Recorded(_) => Rows(s0, s, r, JobVerified, DiskVerified) && SaysClean(s, r)
       case Certified => Rows(s0, s, r, JobVerified, DiskVerified) && SaysClean(s, r) && HasIssued(s, r)
       case Listed =>
         Rows(s0, s, r, JobVerified, DiskVerified) && SaysClean(s, r) && HasIssued(s, r) && AllDisksDone(s, r.diskRow.asset)
       case Gone => true
  }

  /** The asset once its disks were listed as done: moved on if it is being erased, else left alone. */
  function AfterListing(assets: map<Id, Asset>, asset: Id): map<Id, Asset>
    requires asset in assets
  {
    if assets[asset].status == AssetErasing then assets[asset := assets[asset].(status := AssetErasureDone)] else assets
  }

  /** The ways in which a run can end, and what each of them leaves. */
  ghost predicate Ends(s0: Store, s: Store, r: Runner, last: Move) {
    match last
    case FailBefore(_) => s.disks == s0.disks && r.job in s.jobs && s.jobs[r.job].status == JobFailed && s.assets == s0.assets
    case Interrupted(_) =>
      && (Rows(s0, s, r, JobRunning, DiskErasing) || Rows(s0, s, r, JobVerifying, DiskErasing))
      && Newest(s, r, RunInterrupted) && s.assets == s0.assets
    case FailRun(_) => Rows(s0, s, r, JobFailed, DiskErasing) && Newest(s, r, RunFailed) && s.assets == s0.assets
    case FailDisk => Rows(s0, s, r, JobFailed, DiskFailed) && SaysMismatch(s, r) && s.assets == s0.assets
    case Certify(_) => Rows(s0, s, r, JobVerified, DiskVerified) && SaysClean(s, r) && !HasIssued(s, r) && s.assets == s0.assets
    case CertificateFails =>
      Rows(s0, s, r, JobVerified, DiskVerified) && SaysClean(s, r) && !HasIssued(s, r) && s.assets == s0.assets
    case ListDisks =>
      && Rows(s0, s, r, JobVerified, DiskVerified) && SaysClean(s, r) && HasIssued(s, r) && s.assets == s0.assets
      && !AllDisksDone(s, r.diskRow.asset)
    case AssetDone =>
      && Rows(s0, s, r, JobVerified, DiskVerified) && SaysClean(s, r) && HasIssued(s, r) && AllDisksDone(s, r.diskRow.asset)
      && r.diskRow.asset in s0.assets && s.assets == AfterListing(s0.assets, r.diskRow.asset)
    case _ => false
  }

  ghost predicate Leaves(s0: Store, s': Store, r: Runner, move: Move, pc: Pc) {
    if pc == Gone then Ends(s0, s', r, move) else Shows(s0, s', r.(pc := pc))
  }

  lemma StartShows(s0: Store, s: Store, r: Runner, move: Move, s': Store, pc: Pc)
    requires Stands(s, r) && Shows(s0, s, r) && Step(s, r, move, s', pc) && (r.pc == Claimed || r.pc == Marked)
    ensures Leaves(s0, s', r, move, pc)
  {}

  lemma WorkingShows(s0: Store, s: Store, r: Runner, move: Move, s': Store, pc: Pc)
    requires Stands(s, r) && Shows(s0, s, r) && Step(s, r, move, s', pc) && (r.pc == Working || r.pc == FailingDisk)
    ensures Leaves(s0, s', r, move, pc)
  {}

  lemma PassedShows(s0: Store, s: Store, r: Runner, move: Move, s': Store, pc: Pc)
    requires Stands(s, r) && Shows(s0, s, r) && Step(s, r, move, s', pc) && (r.pc.Saved? || r.pc.DiskMarked?)
    ensures Leaves(s0, s', r, move, pc)
  {}

  lemma IssuingShows(s0: Store, s: Store, r: Runner, move: Move, s': Store, pc: Pc)
    requires Stands(s, r) && Shows(s0, s, r) && Step(s, r, move, s', pc) && r.pc.Recorded?
    ensures Leaves(s0, s', r, move, pc)
  {
    IssuingKeeps(s, r, move, s', pc);
    SameFiles(s0, s, s', r);
  }

  /** Issuing touches only certificates; it adds one of this job, or none. */
  lemma IssuingKeeps(s: Store, r: Runner, move: Move, s': Store, pc: Pc)
    requires Step(s, r, move, s', pc) && r.pc.Recorded? && !HasIssued(s, r)
    ensures s'.disks == s.disks && s'.jobs == s.jobs && s'.runs == s.runs && s'.assets == s.assets
    ensures (pc == Certified && HasIssued(s', r)) || (pc == Gone && !HasIssued(s', r) && (move.Certify? || move == CertificateFails))
  {
    if move.Certify? && pc == Certified {
      BuiltInStandards(r.jobRow.standard);
      assert CertificateNumber(s, r, move.day) in s'.certs;
    }
  }

  lemma SameFiles(s0: Store, s: Store, s': Store, r: Runner)
    requires s'.disks == s.disks && s'.jobs == s.jobs && s'.runs == s.runs
    requires Rows(s0, s, r, JobVerified, DiskVerified) && SaysClean(s, r)
    ensures Rows(s0, s', r, JobVerified, DiskVerified) && SaysClean(s', r)
  {}

  lemma ListingShows(s0: Store, s: Store, r: Runner, move: Move, s': Store, pc: Pc)
    requires Stands(s, r) && Shows(s0, s, r) && Step(s, r, move, s', pc) && r.pc == Certified
    ensures Leaves(s0, s', r, move, pc)
  {}

  lemma BeforeDone(status: AssetStatus)
    ensures CanTransitionAsset(status, AssetErasureDone) <==> status == AssetErasing || status == AssetErasureDone
  {}

  lemma OnlyFromErasing(s: Store, asset: Id, actor: string)
    requires asset in s.assets
    ensures TransitionAsset(s, asset, AssetErasureDone, actor, ErasureVerified).store.assets == AfterListing(s.assets, asset)
  {
    var a := s.assets[asset];
    BeforeDone(a.status);
    if a.status == AssetErasureDone {
      assert a.(status := AssetErasureDone) == a;
      assert s.assets[asset := a] == s.assets;
    }
  }

  lemma AssetMoves(s: Store, r: Runner, move: Move, s': Store, pc: Pc)
    requires Step(s, r, move, s', pc) && r.pc == Listed && r.diskRow.asset in s.assets
    ensures move == AssetDone && pc == Gone && s'.assets == AfterListing(s.assets, r.diskRow.asset)
    ensures s'.disks == s.disks && s'.jobs == s.jobs && s'.runs == s.runs && s'.certs == s.certs
  {
    LastCall(s, r, move, s', pc);
    OnlyFromErasing(s, r.diskRow.asset, r.name);
    AssetsForward(s, r.diskRow.asset, AssetErasureDone, r.name, ErasureVerified);
  }

  lemma LastCall(s: Store, r: Runner, move: Move, s': Store, pc: Pc)
    requires Step(s, r, move, s', pc) && r.pc == Listed
    ensures move == AssetDone && pc == Gone
    ensures s' == TransitionAsset(s, r.diskRow.asset, AssetErasureDone, r.name, ErasureVerified).store
  {}

  lemma DoneShows(s0: Store, s: Store, r: Runner, move: Move, s': Store, pc: Pc)
    requires r.diskRow.asset in s.assets && Shows(s0, s, r) && Step(s, r, move, s', pc) && r.pc == Listed
    ensures Leaves(s0, s', r, move, pc)
  {
    AssetMoves(s, r, move, s', pc);
    SameFiles(s0, s, s', r);
  }

  lemma MoveShows(s0: Store, s: Store, r: Runner, move: Move, s': Store, pc: Pc)
    requires DisksKnown(s.disks, s.assets) && Stands(s, r) && Shows(s0, s, r) && Step(s, r, move, s', pc)
    ensures Leaves(s0, s', r, move, pc)
  {
    match r.pc
    case Claimed => StartShows(s0, s, r, move, s', pc);
    case Marked => StartShows(s0, s, r, move, s', pc);
    case Working => WorkingShows(s0, s, r, move, s', pc);
    case FailingDisk => WorkingShows(s0, s, r, move, s', pc);
    case Saved(_) => PassedShows(s0, s, r, move, s', pc);
    case DiskMarked(_) => PassedShows(s0, s, r, move, s', pc);
    case Recorded(_) => IssuingShows(s0, s, r, move, s', pc);
    case Certified => ListingShows(s0, s, r, move, s', pc);
    case Listed =>
      assert r.diskRow.asset in s.assets;
      DoneShows(s0, s, r, move, s', pc);
  }
}
