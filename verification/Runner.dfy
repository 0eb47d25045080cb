/**
 * The store calls of one job run, one step per call: a power loss can fall between any two of them. The
 * overwrite and verify phases show up here only through the progress they save.
 */
module RunnerModel {
  import opened Domain
  import opened StoreModel
  import CertNumber

  datatype Pc =
    | Claimed
    | Marked
    | Working
    | FailingDisk
    | Saved(bytes: nat)       // verified progress saved, for a verification of so many bytes
    | DiskMarked(bytes: nat)
    | Recorded(bytes: nat)
    | Certified
    | Listed                  // every disk of the asset was done when its disks were listed
    | Gone

  /** Past verification a run carries the number of bytes that its verdict was about. */
  function BytesOf(pc: Pc): Option<nat> {
    match pc
    case Saved(b) => Some(b)
    case DiskMarked(b) => Some(b)
    case Recorded(b) => Some(b)
    case _ => None
  }

  /** A job run: the claimed job and disk as read at the claim, and how far it has come. */
  datatype Runner = Runner(inst: string, name: string, job: Id, jobRow: Job, diskRow: Disk, pc: Pc)

  datatype Move =
    | FailBefore(run: Run)                        // unknown standard or forbidden device path
    | MarkRunning(now: nat)
    | MarkDisk
    | Progress(pass: nat, offset: nat, total: nat, verifying: bool, now: nat)
    | Interrupted(run: Run)
    | FailRun(run: Run)
    | MismatchFound(run: Run)
    | FailDisk
    | SaveVerified(size: nat, bytes: nat, now: nat)
    | DiskVerifiedMove
    | Record(run: Run)
    | Certify(day: string)
    | CertificateFails                            // rendering or uploading failed
    | ListDisks
    | AssetDone

  function Operator(j: Job): string {
    if j.createdBy != "" then j.createdBy else "system"
  }

  function CertificateOf(r: Runner, std: Standard, bytes: nat): Certificate {
    Certificate(r.jobRow.disk, r.diskRow.asset, r.job, std.code, r.jobRow.attempt + 1, std.mode, bytes, Operator(r.jobRow))
  }

  function CertificateNumber(s: Store, r: Runner, day: string): string
    requires r.diskRow.asset in s.assets
  {
    CertNumber.Number(day, s.assets[r.diskRow.asset].tag, r.diskRow.serial, r.jobRow.attempt)
  }

  predicate AllDisksDone(s: Store, asset: Id) {
    forall d :: d in s.disks && s.disks[d].asset == asset ==>
      s.disks[d].status == DiskVerified || s.disks[d].status == DiskScrapped
  }

  predicate CleanRun(run: Run, std: Standard, bytes: nat) {
    run.verdict == RunVerified && run.mismatches == 0 && run.mode == std.mode && run.verifyBytes == bytes
  }

  /** One step of runner `r` takes the store from `s` to `s'` and the runner to `pc'`. */
  predicate Step(s: Store, r: Runner, move: Move, s': Store, pc': Pc) {
    match move
    case FailBefore(run) =>
      && r.pc == Claimed && run.verdict == RunFailed
      && s' == CompleteJob(s, r.job, JobFailed, run).store && pc' == Gone
    case MarkRunning(now) =>
      var reply := MarkJobRunning(s, r.job, r.jobRow.attempt, now);
      && r.pc == Claimed && r.jobRow.standard in STANDARDS
      && s' == reply.store && pc' == (if reply.out == Ok then Marked else Gone)
    case MarkDisk =>
      r.pc == Marked && s' == UpdateDiskStatus(s, r.jobRow.disk, DiskErasing, r.name).store && pc' == Working
    case Progress(pass, offset, total, verifying, now) =>
      && r.pc == Working && r.job in s.jobs
      && s' == SaveProgress(s, r.job, pass, offset, total, if verifying then JobVerifying else JobRunning, now).store
      && pc' == Working
    case Interrupted(run) =>
      r.pc == Working && run.verdict == RunInterrupted && s' == RecordRun(s, r.job, run).store && pc' == Gone
    case FailRun(run) =>
      && r.pc == Working && run.verdict == RunFailed
      && s' == CompleteJob(s, r.job, JobFailed, run).store && pc' == Gone
    case MismatchFound(run) =>
      && r.pc == Working && run.verdict == RunFailed && run.mismatches > 0
      && s' == CompleteJob(s, r.job, JobFailed, run).store && pc' == FailingDisk
    case FailDisk =>
      r.pc == FailingDisk && s' == UpdateDiskStatus(s, r.jobRow.disk, DiskFailed, r.name).store && pc' == Gone
    case SaveVerified(size, bytes, now) =>
      && r.pc == Working && r.jobRow.standard in STANDARDS
      && s' == SaveProgress(s, r.job, |STANDARDS[r.jobRow.standard].passes| - 1, size, size, JobVerified, now).store
      && pc' == Saved(bytes)
    case DiskVerifiedMove =>
      && r.pc.Saved?
      && var reply := UpdateDiskStatus(s, r.jobRow.disk, DiskVerified, r.name);
         s' == reply.store && pc' == (if reply.out == Ok then DiskMarked(r.pc.bytes) else Gone)
    case Record(run) =>
      && r.pc.DiskMarked? && r.jobRow.standard in STANDARDS
      && CleanRun(run, STANDARDS[r.jobRow.standard], r.pc.bytes)
      && s' == CompleteJob(s, r.job, JobVerified, run).store && pc' == Recorded(r.pc.bytes)
    case Certify(day) =>
      && r.pc.Recorded? && r.jobRow.standard in STANDARDS && r.diskRow.asset in s.assets && CertNumber.IsDay(day)
      && var reply := SaveCertificate(s, CertificateNumber(s, r, day),
                                      CertificateOf(r, STANDARDS[r.jobRow.standard], r.pc.bytes));
         s' == reply.store && pc' == (if reply.out == Ok then Certified else Gone)
    case CertificateFails =>
      r.pc.Recorded? && s' == s && pc' == Gone
    case ListDisks =>
      r.pc == Certified && s' == s && pc' == (if AllDisksDone(s, r.diskRow.asset) then Listed else Gone)
    case AssetDone =>
      && r.pc == Listed && pc' == Gone
      && s' == TransitionAsset(s, r.diskRow.asset, AssetErasureDone, r.name, ErasureVerified).store
  }

  /** Only the certifying move adds a certificate. */
  lemma CertifyAdds(s: Store, r: Runner, move: Move, s': Store, pc: Pc, certNo: string)
    requires Step(s, r, move, s', pc) && certNo in s'.certs && certNo !in s.certs
    ensures r.pc.Recorded? && s'.certs[certNo].job == r.job && s'.certs[certNo].verifyBytes == r.pc.bytes
  {
    if move.Certify? {
      BuiltInStandards(r.jobRow.standard);
    }
  }

  // ---- a whole run, as the worker performs it when nobody else touches the store ----

  datatype Path = Path(states: seq<(Store, Pc)>, moves: seq<Move>) {
    predicate Valid(r: Runner) {
      && |states| == |moves| + 1
      && forall i :: 0 <= i < |moves| ==>
           Step(states[i].0, r.(pc := states[i].1), moves[i], states[i + 1].0, states[i + 1].1)
    }

    function Last(): (Store, Pc)
      requires |states| > 0
    {
      states[|states| - 1]
    }

    function Then(move: Move, s: Store, pc: Pc): Path {
      Path(states + [(s, pc)], moves + [move])
    }
  }
}
