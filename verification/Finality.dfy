/**
 * What the finalize protocol leaves in the store, whatever happens between two of its calls: certificates rest
 * on verified runs, verified runs on disks marked verified, verified disks on jobs verified to their last byte.
 */
module Finality {
  import opened Domain
  import opened StoreModel
  import opened History
  import opened ServiceRules
  import opened RunnerModel
  import CertNumber
  import Gate

  // ---- rows of the audit log ----

  predicate MarkRow(row: Audit, disk: Id) {
    row.kind == DiskEntity && row.id == disk && row.action == SetDiskStatus(DiskVerified)
  }

  predicate IssueRow(row: Audit, certNo: string) {
    row.kind == CertificateEntity && row.id == certNo && row.action == IssueCertificate
  }

  ghost predicate WasVerified(log: seq<Audit>, disk: Id) {
    exists i :: 0 <= i < |log| && MarkRow(log[i], disk)
  }

  /** The certificate was issued after its disk had been marked verified. */
  ghost predicate IssuedAfterMark(log: seq<Audit>, disk: Id, certNo: string) {
    exists i, j :: 0 <= i < j < |log| && MarkRow(log[i], disk) && IssueRow(log[j], certNo)
  }

  lemma LongerLog(log: seq<Audit>, log': seq<Audit>, disk: Id)
    requires log <= log'
    ensures WasVerified(log, disk) ==> WasVerified(log', disk)
    ensures forall certNo :: IssuedAfterMark(log, disk, certNo) ==> IssuedAfterMark(log', disk, certNo)
  {
    if WasVerified(log, disk) {
      var i :| 0 <= i < |log| && MarkRow(log[i], disk);
      assert MarkRow(log'[i], disk);
    }
    forall certNo | IssuedAfterMark(log, disk, certNo) ensures IssuedAfterMark(log', disk, certNo) {
      var i, j :| 0 <= i < j < |log| && MarkRow(log[i], disk) && IssueRow(log[j], certNo);
      assert MarkRow(log'[i], disk) && IssueRow(log'[j], certNo);
    }
  }

  // ---- the invariant ----

  predicate SameAttempt(jobs: map<Id, Job>, j: Id, k: Id)
    requires j in jobs && k in jobs
  {
    jobs[j].disk == jobs[k].disk && jobs[j].attempt == jobs[k].attempt
  }

  /** Jobs are by built-in standards; those of one disk carry different attempt numbers, all below their number. */
  ghost predicate Attempts(jobs: map<Id, Job>) {
    && (forall j :: j in jobs ==> jobs[j].standard in STANDARDS)
    && (forall j :: j in jobs ==> jobs[j].attempt < |OrdersOf(jobs, jobs[j].disk)|)
    && (forall j, k :: j in jobs && k in jobs && SameAttempt(jobs, j, k) ==> j == k)
  }

  /** The checkpoint stands at the end of the last pass. */
  predicate AtEnd(job: Job, j: Id, checkpoints: map<Id, Checkpoint>) {
    && job.standard in STANDARDS && j in checkpoints
    && checkpoints[j].pass == |STANDARDS[job.standard].passes| - 1
    && checkpoints[j].offset == job.total && job.done == job.total
  }

  ghost predicate VerifiedJobs(jobs: map<Id, Job>, checkpoints: map<Id, Checkpoint>) {
    forall j :: j in jobs && jobs[j].status == JobVerified ==> AtEnd(jobs[j], j, checkpoints)
  }

  predicate VerifiedOn(job: Job, disk: Id) {
    job.disk == disk && job.status == JobVerified
  }

  ghost predicate HasVerifiedJob(jobs: map<Id, Job>, disk: Id) {
    exists j :: j in jobs && VerifiedOn(jobs[j], disk)
  }

  ghost predicate VerifiedDisks(disks: map<Id, Disk>, jobs: map<Id, Job>) {
    forall d :: d in disks && disks[d].status == DiskVerified ==> HasVerifiedJob(jobs, d)
  }

  ghost predicate RunRests(run: Run, j: Id, jobs: map<Id, Job>, log: seq<Audit>) {
    && j in jobs && jobs[j].status == JobVerified && jobs[j].standard in STANDARDS
    && run.mismatches == 0 && run.mode == STANDARDS[jobs[j].standard].mode
    && WasVerified(log, jobs[j].disk)
  }

  ghost predicate VerifiedRuns(runs: map<Id, seq<Run>>, jobs: map<Id, Job>, log: seq<Audit>) {
    forall j, i :: j in runs && 0 <= i < |runs[j]| && runs[j][i].verdict == RunVerified ==> RunRests(runs[j][i], j, jobs, log)
  }

  ghost predicate HasCleanRun(runs: seq<Run>, std: Standard, bytes: nat) {
    exists i :: 0 <= i < |runs| && CleanRun(runs[i], std, bytes)
  }

  ghost predicate NumberedFor(certNo: string, tag: string, serial: string, attempt: nat) {
    exists day :: CertNumber.IsDay(day) && certNo == CertNumber.Number(day, tag, serial, attempt)
  }

  ghost predicate CertificateRests(s: Store, certNo: string, c: Certificate) {
    && c.job in s.jobs && c.disk == s.jobs[c.job].disk && c.disk in s.disks
    && c.asset == s.disks[c.disk].asset && c.asset in s.assets
    && c.standard == s.jobs[c.job].standard && c.standard in STANDARDS && c.mode == STANDARDS[c.standard].mode
    && HasCleanRun(RunsOf(s, c.job), STANDARDS[c.standard], c.verifyBytes)
    && c.attempts == s.jobs[c.job].attempt + 1 && c.operator == Operator(s.jobs[c.job])
    && NumberedFor(certNo, s.assets[c.asset].tag, s.disks[c.disk].serial, s.jobs[c.job].attempt)
    && IssuedAfterMark(s.audit, c.disk, certNo)
  }

  ghost predicate OnePerJob(certs: map<string, Certificate>) {
    forall n, m :: n in certs && m in certs && certs[n].job == certs[m].job ==> n == m
  }

  ghost predicate Certificates(s: Store) {
    OnePerJob(s.certs) && forall n :: n in s.certs ==> CertificateRests(s, n, s.certs[n])
  }

  ghost predicate Final(s: Store) {
    && Attempts(s.jobs) && VerifiedJobs(s.jobs, s.checkpoints) && VerifiedDisks(s.disks, s.jobs)
    && VerifiedRuns(s.runs, s.jobs, s.audit) && Certificates(s)
  }

  lemma EmptyFinal()
    ensures Final(EMPTY)
  {}

  // ---- what a run in progress can rely on ----

  predicate Late(pc: Pc) {
    pc.Saved? || pc.DiskMarked? || pc.Recorded? || pc == Certified || pc == Listed
  }

  ghost predicate Knows(s: Store, r: Runner) {
    && r.job in s.jobs && SameOrder(r.jobRow, s.jobs[r.job]) && r.jobRow.attempt == s.jobs[r.job].attempt
    && r.jobRow.disk in s.disks
    && r.diskRow.asset == s.disks[r.jobRow.disk].asset && r.diskRow.serial == s.disks[r.jobRow.disk].serial
  }

  ghost predicate NoVerifiedRun(runs: seq<Run>) {
    forall i :: 0 <= i < |runs| ==> runs[i].verdict != RunVerified
  }

  ghost predicate Uncertified(certs: map<string, Certificate>, job: Id) {
    forall n :: n in certs ==> certs[n].job != job
  }

  /** How far a run has come shows in the store, and the store has not gone further than the run. */
  ghost predicate Stands(s: Store, r: Runner) {
    && Knows(s, r) && r.pc != Gone
    && (Late(r.pc) <==> s.jobs[r.job].status == JobVerified)
    && (Late(r.pc) ==> r.jobRow.standard in STANDARDS)
    && (Late(r.pc) && !r.pc.Saved? ==> WasVerified(s.audit, r.jobRow.disk))
    && (!Late(r.pc) || r.pc.Saved? || r.pc.DiskMarked? ==> NoVerifiedRun(RunsOf(s, r.job)))
    && (r.pc.Recorded? ==> HasCleanRun(RunsOf(s, r.job), STANDARDS[r.jobRow.standard], r.pc.bytes))
    && (r.pc != Certified && r.pc != Listed ==> Uncertified(s.certs, r.job))
  }

  // ---- steps that verify and certify nothing ----

  ghost predicate RunsStay(s: Store, s': Store, j: Id) {
    RunsOf(s', j) == RunsOf(s, j)
    || (|RunsOf(s', j)| == |RunsOf(s, j)| + 1 && RunsOf(s, j) <= RunsOf(s', j)
        && RunsOf(s', j)[|RunsOf(s, j)|].verdict != RunVerified)
  }

  /** The row of a job is untouched, or the job was ended by scrapping its disk. */
  ghost predicate Untouched(s: Store, s': Store, j: Id) {
    && j in s.jobs && j in s'.jobs && RunsStay(s, s', j)
    && (j in s.checkpoints <==> j in s'.checkpoints) && (j in s.checkpoints ==> s'.checkpoints[j] == s.checkpoints[j])
    && (s'.jobs[j] == s.jobs[j]
        || (s'.jobs[j] == s.jobs[j].(status := JobFailed)
            && (s.jobs[j].status == JobPending || s.jobs[j].status == JobRunning)))
  }

  ghost predicate NoneVerified(disks: map<Id, Disk>, disks': map<Id, Disk>) {
    forall d :: d in disks' && disks'[d].status == DiskVerified ==> d in disks && disks[d].status == DiskVerified
  }

  /** Everything that is not a job. */
  ghost predicate Around(s: Store, s': Store) {
    s.audit <= s'.audit && DisksStay(s.disks, s'.disks) && AssetsAdvance(s.assets, s'.assets)
  }

  lemma UntouchedStands(s: Store, s': Store, r: Runner)
    requires Stands(s, r) && Around(s, s') && Untouched(s, s', r.job)
    requires Extends(s.certs, s'.certs) && forall n :: n in s'.certs && n !in s.certs ==> s'.certs[n].job != r.job
    ensures Stands(s', r)
  {
    LongerLog(s.audit, s'.audit, r.jobRow.disk);
    CleanRunStays(s, s', r.job);
  }

  lemma CleanRunStays(s: Store, s': Store, j: Id)
    requires RunsOf(s, j) <= RunsOf(s', j)
    ensures forall std, bytes :: HasCleanRun(RunsOf(s, j), std, bytes) ==> HasCleanRun(RunsOf(s', j), std, bytes)
  {
    forall std, bytes | HasCleanRun(RunsOf(s, j), std, bytes) ensures HasCleanRun(RunsOf(s', j), std, bytes) {
      var i :| 0 <= i < |RunsOf(s, j)| && CleanRun(RunsOf(s, j)[i], std, bytes);
      assert CleanRun(RunsOf(s', j)[i], std, bytes);
    }
  }

  /** A job row that may move on, but neither into nor out of the verified status. */
  ghost predicate KeepsOn(s: Store, s': Store, j: Id)
    requires j in s.jobs && j in s'.jobs
  {
    && SameOrder(s.jobs[j], s'.jobs[j]) && s'.jobs[j].attempt == s.jobs[j].attempt && RunsStay(s, s', j)
    && (s.jobs[j].status == JobVerified || s'.jobs[j].status == JobVerified ==> Untouched(s, s', j))
  }

  ghost predicate Uneventful(s: Store, s': Store) {
    && Around(s, s') && s'.certs == s.certs && NoneVerified(s.disks, s'.disks)
    && s'.jobs.Keys == s.jobs.Keys && (forall j :: j in s.jobs ==> KeepsOn(s, s', j))
    && (forall j :: RunsStay(s, s', j))
  }

  lemma AttemptsKept(jobs: map<Id, Job>, jobs': map<Id, Job>)
    requires Attempts(jobs) && jobs'.Keys == jobs.Keys
    requires forall j :: j in jobs ==>
               jobs'[j].disk == jobs[j].disk && jobs'[j].attempt == jobs[j].attempt && jobs'[j].standard == jobs[j].standard
    ensures Attempts(jobs')
  {
    forall disk ensures OrdersOf(jobs', disk) == OrdersOf(jobs, disk) {}
    forall j, k | j in jobs' && k in jobs' && SameAttempt(jobs', j, k) ensures j == k {
      assert SameAttempt(jobs, j, k);
    }
  }

  lemma VerifiedDisksKept(disks: map<Id, Disk>, disks': map<Id, Disk>, jobs: map<Id, Job>, jobs': map<Id, Job>)
    requires VerifiedDisks(disks, jobs) && NoneVerified(disks, disks')
    requires forall j :: j in jobs && jobs[j].status == JobVerified ==> j in jobs' && VerifiedOn(jobs'[j], jobs[j].disk)
    ensures VerifiedDisks(disks', jobs')
  {
    forall d | d in disks' && disks'[d].status == DiskVerified ensures HasVerifiedJob(jobs', d) {
      var j :| j in jobs && VerifiedOn(jobs[j], d);
      assert VerifiedOn(jobs'[j], d);
    }
  }

  lemma VerifiedRunsKept(s: Store, s': Store)
    requires VerifiedRuns(s.runs, s.jobs, s.audit) && s.audit <= s'.audit
    requires forall j :: RunsStay(s, s', j)
    requires forall j :: j in s.jobs && s.jobs[j].status == JobVerified ==> j in s'.jobs && s'.jobs[j] == s.jobs[j]
    ensures VerifiedRuns(s'.runs, s'.jobs, s'.audit)
  {
    forall j, i | j in s'.runs && 0 <= i < |s'.runs[j]| && s'.runs[j][i].verdict == RunVerified
      ensures RunRests(s'.runs[j][i], j, s'.jobs, s'.audit)
    {
      assert RunsStay(s, s', j);
      assert s'.runs[j] == RunsOf(s', j) && i < |RunsOf(s, j)| && RunsOf(s, j)[i] == s'.runs[j][i];
      assert RunRests(s.runs[j][i], j, s.jobs, s.audit);
      LongerLog(s.audit, s'.audit, s.jobs[j].disk);
    }
  }

  /** What a certificate rests on never goes away. */
  lemma CertificateStillRests(s: Store, s': Store, certNo: string, c: Certificate)
    requires CertificateRests(s, certNo, c) && Around(s, s')
    requires c.job in s'.jobs && SameOrder(s.jobs[c.job], s'.jobs[c.job]) && s'.jobs[c.job].attempt == s.jobs[c.job].attempt
    requires RunsOf(s, c.job) <= RunsOf(s', c.job)
    ensures CertificateRests(s', certNo, c)
  {
    CleanRunStays(s, s', c.job);
    LongerLog(s.audit, s'.audit, c.disk);
  }

  ghost predicate SameTerms(s: Store, s': Store, j: Id)
    requires j in s.jobs
  {
    && j in s'.jobs && SameOrder(s.jobs[j], s'.jobs[j]) && s'.jobs[j].attempt == s.jobs[j].attempt
    && RunsOf(s, j) <= RunsOf(s', j)
  }

  lemma CertificatesKept(s: Store, s': Store)
    requires Certificates(s) && Around(s, s') && s'.certs == s.certs
    requires forall j :: j in s.jobs ==> SameTerms(s, s', j)
    ensures Certificates(s')
  {
    forall n | n in s'.certs ensures CertificateRests(s', n, s'.certs[n]) {
      assert SameTerms(s, s', s.certs[n].job);
      CertificateStillRests(s, s', n, s.certs[n]);
    }
  }

  lemma UneventfulJobs(s: Store, s': Store)
    requires Uneventful(s, s') && Attempts(s.jobs) && VerifiedJobs(s.jobs, s.checkpoints)
    ensures Attempts(s'.jobs) && VerifiedJobs(s'.jobs, s'.checkpoints)
    ensures forall j :: j in s.jobs ==> SameTerms(s, s', j)
    ensures forall j :: j in s.jobs && s.jobs[j].status == JobVerified ==> s'.jobs[j] == s.jobs[j]
  {
    EachKeepsOn(s, s');
    AttemptsKept(s.jobs, s'.jobs);
    VerifiedJobsKept(s, s');
  }

  lemma EachKeepsOn(s: Store, s': Store)
    requires Uneventful(s, s')
    ensures forall j :: j in s.jobs ==> SameTerms(s, s', j)
    ensures forall j :: j in s.jobs && (s.jobs[j].status == JobVerified || s'.jobs[j].status == JobVerified) ==>
              Untouched(s, s', j) && s'.jobs[j] == s.jobs[j]
  {
    forall j | j in s.jobs
      ensures SameTerms(s, s', j)
      ensures s.jobs[j].status == JobVerified || s'.jobs[j].status == JobVerified ==> Untouched(s, s', j) && s'.jobs[j] == s.jobs[j]
    {
      assert KeepsOn(s, s', j);
    }
  }

  lemma UneventfulKeepsFinal(s: Store, s': Store)
    requires Final(s) && Uneventful(s, s')
    ensures Final(s')
  {
    UneventfulJobs(s, s');
    VerifiedDisksKept(s.disks, s'.disks, s.jobs, s'.jobs);
    VerifiedRunsKept(s, s');
    CertificatesKept(s, s');
  }

  lemma VerifiedJobsKept(s: Store, s': Store)
    requires VerifiedJobs(s.jobs, s.checkpoints)
    requires forall j :: j in s'.jobs && s'.jobs[j].status == JobVerified ==> Untouched(s, s', j)
    ensures VerifiedJobs(s'.jobs, s'.checkpoints)
  {}

  // ---- the moves of one run ----

  /** The other jobs do not notice, and certificates are only added for this run's job. */
  ghost predicate Others(s: Store, s': Store, own: Id) {
    && Around(s, s') && (forall j :: j in s.jobs && j != own ==> Untouched(s, s', j))
    && Extends(s.certs, s'.certs) && (forall n :: n in s'.certs && n !in s.certs ==> s'.certs[n].job == own)
    && s'.jobs.Keys == s.jobs.Keys && s'.approvals == s.approvals && s'.disposals == s.disposals
  }

  lemma OthersReflexive(s: Store, own: Id)
    ensures Others(s, s, own)
  {}

  /** Only the row, checkpoint and runs of one job change. */
  ghost predicate OnlyJob(s: Store, s': Store, j: Id) {
    && s' == s.(jobs := s'.jobs, checkpoints := s'.checkpoints, runs := s'.runs) && s'.jobs.Keys == s.jobs.Keys
    && (forall k :: k in s.jobs && k != j ==> s'.jobs[k] == s.jobs[k])
    && (forall k :: k in s.jobs && k != j ==> SameCheckpoint(s, s', k))
    && (forall k :: k != j ==> RunsOf(s', k) == RunsOf(s, k))
    && s'.checkpoints.Keys <= s.checkpoints.Keys + {j}
    && j in s.jobs && SameOrder(s.jobs[j], s'.jobs[j]) && s'.jobs[j].attempt == s.jobs[j].attempt
  }

  ghost predicate SameCheckpoint(s: Store, s': Store, k: Id) {
    (k in s.checkpoints <==> k in s'.checkpoints) && (k in s.checkpoints ==> s'.checkpoints[k] == s.checkpoints[k])
  }

  lemma OnlyJobOthers(s: Store, s': Store, j: Id)
    requires OnlyJob(s, s', j)
    ensures Others(s, s', j)
  {
    forall k | k in s.jobs && k != j ensures Untouched(s, s', k) {
      assert SameCheckpoint(s, s', k);
    }
  }

  /** A step that replaces the row of one job that is not verified, before or after. */
  lemma JobStep(s: Store, s': Store, j: Id)
    requires Final(s) && OnlyJob(s, s', j) && s.jobs[j].status != JobVerified && s'.jobs[j].status != JobVerified
    requires RunsStay(s, s', j)
    ensures Final(s') && Others(s, s', j)
  {
    OnlyJobOthers(s, s', j);
    forall k | k in s.jobs ensures KeepsOn(s, s', k) {
      assert k != j ==> Untouched(s, s', k);
    }
    forall k ensures RunsStay(s, s', k) {}
    UneventfulKeepsFinal(s, s');
  }

  lemma EarlyStands(s: Store, s': Store, r: Runner, pc: Pc)
    requires Stands(s, r) && !Late(r.pc) && !Late(pc) && pc != Gone && OnlyJob(s, s', r.job)
    requires s'.jobs[r.job].status != JobVerified && RunsStay(s, s', r.job)
    ensures Stands(s', r.(pc := pc))
  {
    KnowsStill(s, s', r);
    NoneVerifiedStill(s, s', r.job);
  }

  lemma KnowsStill(s: Store, s': Store, r: Runner)
    requires Knows(s, r) && OnlyJob(s, s', r.job)
    ensures Knows(s', r)
  {}

  lemma NoneVerifiedStill(s: Store, s': Store, j: Id)
    requires RunsStay(s, s', j) && NoVerifiedRun(RunsOf(s, j))
    ensures NoVerifiedRun(RunsOf(s', j))
  {}

  lemma EarlyStep(s: Store, s': Store, r: Runner, pc: Pc)
    requires Final(s) && Stands(s, r) && !Late(r.pc) && !Late(pc) && pc != Gone && OnlyJob(s, s', r.job)
    requires s'.jobs[r.job].status != JobVerified && RunsStay(s, s', r.job)
    ensures Final(s') && Others(s, s', r.job) && Stands(s', r.(pc := pc))
  {
    JobStep(s, s', r.job);
    EarlyStands(s, s', r, pc);
  }

  lemma MarkOnly(s: Store, j: Id, now: nat)
    requires j in s.jobs
    ensures OnlyJob(s, MarkJobRunning(s, j, s.jobs[j].attempt, now).store, j)
  {}

  lemma ProgressOnly(s: Store, j: Id, pass: nat, offset: nat, total: nat, status: JobStatus, now: nat)
    requires j in s.jobs
    ensures OnlyJob(s, SaveProgress(s, j, pass, offset, total, status, now).store, j)
  {}

  lemma CompleteOnly(s: Store, j: Id, status: JobStatus, run: Run)
    requires j in s.jobs
    ensures OnlyJob(s, CompleteJob(s, j, status, run).store, j)
  {}

  lemma RecordOnly(s: Store, j: Id, run: Run)
    requires j in s.jobs
    ensures OnlyJob(s, RecordRun(s, j, run).store, j)
  {}

  lemma MarkStep(s: Store, r: Runner, now: nat)
    requires Final(s) && Stands(s, r) && r.pc == Claimed
    ensures var reply := MarkJobRunning(s, r.job, r.jobRow.attempt, now);
            reply.out == Ok && Final(reply.store) && Others(s, reply.store, r.job) && Stands(reply.store, r.(pc := Marked))
  {
    var s' := MarkJobRunning(s, r.job, r.jobRow.attempt, now).store;
    MarkOnly(s, r.job, now);
    EarlyStep(s, s', r, Marked);
  }

  lemma ProgressStep(s: Store, r: Runner, pass: nat, offset: nat, total: nat, verifying: bool, now: nat)
    requires Final(s) && Stands(s, r) && r.pc == Working
    ensures var s' := SaveProgress(s, r.job, pass, offset, total, if verifying then JobVerifying else JobRunning, now).store;
            Final(s') && Others(s, s', r.job) && Stands(s', r.(pc := Working))
  {
    var status := if verifying then JobVerifying else JobRunning;
    var s' := SaveProgress(s, r.job, pass, offset, total, status, now).store;
    ProgressOnly(s, r.job, pass, offset, total, status, now);
    EarlyStep(s, s', r, Working);
  }

  lemma FailStep(s: Store, r: Runner, run: Run)
    requires Final(s) && Stands(s, r) && !Late(r.pc) && run.verdict == RunFailed
    ensures var s' := CompleteJob(s, r.job, JobFailed, run).store;
            Final(s') && Others(s, s', r.job) && Stands(s', r.(pc := FailingDisk))
  {
    var s' := CompleteJob(s, r.job, JobFailed, run).store;
    CompleteOnly(s, r.job, JobFailed, run);
    EarlyStep(s, s', r, FailingDisk);
  }

  lemma InterruptStep(s: Store, r: Runner, run: Run)
    requires Final(s) && Stands(s, r) && r.pc == Working && run.verdict == RunInterrupted
    ensures var s' := RecordRun(s, r.job, run).store; Final(s') && Others(s, s', r.job)
  {
    RecordOnly(s, r.job, run);
    JobStep(s, RecordRun(s, r.job, run).store, r.job);
  }

  /** Steps that change disks, assets and the log only. */
  lemma AroundStep(s: Store, s': Store, own: Id)
    requires Final(s) && Around(s, s') && NoneVerified(s.disks, s'.disks)
    requires s' == s.(assets := s'.assets, disks := s'.disks, audit := s'.audit)
    ensures Final(s') && Others(s, s', own)
    ensures forall r :: Stands(s, r) ==> Stands(s', r)
  {
    forall j ensures RunsStay(s, s', j) && (j in s.jobs ==> Untouched(s, s', j)) {}
    UneventfulKeepsFinal(s, s');
    forall r | Stands(s, r) ensures Stands(s', r) {
      UntouchedStands(s, s', r);
    }
  }

  lemma DiskMoved(s: Store, disk: Id, status: DiskStatus, actor: string)
    ensures var s' := UpdateDiskStatus(s, disk, status, actor).store;
            && s' == s.(disks := s'.disks, audit := s'.audit) && Around(s, s')
            && (status != DiskVerified ==> NoneVerified(s.disks, s'.disks))
  {
    var s' := UpdateDiskStatus(s, disk, status, actor).store;
    if disk in s.disks {
      assert s'.disks == s.disks[disk := s.disks[disk].(status := status)];
    }
  }

  lemma DiskStep(s: Store, disk: Id, status: DiskStatus, actor: string, own: Id)
    requires Final(s) && status != DiskVerified
    ensures var s' := UpdateDiskStatus(s, disk, status, actor).store;
            Final(s') && Others(s, s', own) && (forall r :: Stands(s, r) ==> Stands(s', r))
  {
    DiskMoved(s, disk, status, actor);
    AroundStep(s, UpdateDiskStatus(s, disk, status, actor).store, own);
  }

  lemma MarkDiskStep(s: Store, r: Runner)
    requires Final(s) && Stands(s, r) && r.pc == Marked
    ensures var s' := UpdateDiskStatus(s, r.jobRow.disk, DiskErasing, r.name).store;
            Final(s') && Others(s, s', r.job) && Stands(s', r.(pc := Working))
  {
    DiskStep(s, r.jobRow.disk, DiskErasing, r.name, r.job);
    var s' := UpdateDiskStatus(s, r.jobRow.disk, DiskErasing, r.name).store;
    assert Stands(s, r.(pc := Working));
  }

  lemma SaveVerifiedStep(s: Store, r: Runner, size: nat, bytes: nat, now: nat)
    requires Final(s) && Stands(s, r) && r.pc == Working && r.jobRow.standard in STANDARDS
    ensures var s' := SaveProgress(s, r.job, |STANDARDS[r.jobRow.standard].passes| - 1, size, size, JobVerified, now).store;
            Final(s') && Others(s, s', r.job) && Stands(s', r.(pc := Saved(bytes)))
  {
    BuiltInStandards(r.jobRow.standard);
    var s' := SaveProgress(s, r.job, |STANDARDS[r.jobRow.standard].passes| - 1, size, size, JobVerified, now).store;
    ProgressOnly(s, r.job, |STANDARDS[r.jobRow.standard].passes| - 1, size, size, JobVerified, now);
    OnlyJobOthers(s, s', r.job);
    SavedJobs(s, s', r.job);
    SavedStands(s, s', r, bytes);
  }

  lemma SavedStands(s: Store, s': Store, r: Runner, bytes: nat)
    requires Stands(s, r) && r.pc == Working && OnlyJob(s, s', r.job) && s'.runs == s.runs
    requires s'.jobs[r.job].status == JobVerified && r.jobRow.standard in STANDARDS
    ensures Stands(s', r.(pc := Saved(bytes)))
  {
    assert Knows(s', r.(pc := Saved(bytes)));
  }

  lemma SavedJobs(s: Store, s': Store, j: Id)
    requires Final(s) && OnlyJob(s, s', j) && s'.runs == s.runs
    requires s.jobs[j].status != JobVerified && s'.jobs[j].status == JobVerified && AtEnd(s'.jobs[j], j, s'.checkpoints)
    ensures Final(s')
  {
    AttemptsKept(s.jobs, s'.jobs);
    VerifiedDisksKept(s.disks, s'.disks, s.jobs, s'.jobs);
    SavedRuns(s, s', j);
    AtEndKept(s, s', j);
  }

  lemma SavedRuns(s: Store, s': Store, j: Id)
    requires VerifiedRuns(s.runs, s.jobs, s.audit) && Certificates(s) && OnlyJob(s, s', j) && s'.runs == s.runs
    requires s.jobs[j].status != JobVerified
    ensures VerifiedRuns(s'.runs, s'.jobs, s'.audit) && Certificates(s')
  {
    SameRuns(s, s', j);
    VerifiedRunsKept(s, s');
    CertificatesKept(s, s');
  }

  lemma SameRuns(s: Store, s': Store, j: Id)
    requires OnlyJob(s, s', j) && s'.runs == s.runs
    ensures forall k :: RunsStay(s, s', k)
    ensures forall k :: k in s.jobs ==> SameTerms(s, s', k)
  {
    forall k ensures RunsStay(s, s', k) && (k in s.jobs ==> SameTerms(s, s', k)) {}
  }

  lemma AtEndKept(s: Store, s': Store, j: Id)
    requires VerifiedJobs(s.jobs, s.checkpoints) && OnlyJob(s, s', j) && AtEnd(s'.jobs[j], j, s'.checkpoints)
    ensures VerifiedJobs(s'.jobs, s'.checkpoints)
  {
    forall k | k in s'.jobs && s'.jobs[k].status == JobVerified ensures AtEnd(s'.jobs[k], k, s'.checkpoints) {
      assert k != j ==> SameCheckpoint(s, s', k);
    }
  }

  lemma MarkVerifiedStep(s: Store, r: Runner)
    requires Final(s) && Stands(s, r) && r.pc.Saved?
    ensures var reply := UpdateDiskStatus(s, r.jobRow.disk, DiskVerified, r.name); var s' := reply.store;
            reply.out == Ok && Final(s') && Others(s, s', r.job) && Stands(s', r.(pc := DiskMarked(r.pc.bytes)))
  {
    var s' := UpdateDiskStatus(s, r.jobRow.disk, DiskVerified, r.name).store;
    DiskMoved(s, r.jobRow.disk, DiskVerified, r.name);
    assert VerifiedOn(s.jobs[r.job], r.jobRow.disk);
    MarkedDisks(s, s', r.jobRow.disk);
    MarkedStands(s, s', r);
  }

  lemma MarkedStands(s: Store, s': Store, r: Runner)
    requires Stands(s, r) && r.pc.Saved? && Around(s, s') && Untouched(s, s', r.job) && s'.certs == s.certs
    requires |s'.audit| > |s.audit| && MarkRow(s'.audit[|s.audit|], r.jobRow.disk)
    ensures Stands(s', r.(pc := DiskMarked(r.pc.bytes)))
  {
    UntouchedStands(s, s', r);
  }

  lemma MarkedDisks(s: Store, s': Store, disk: Id)
    requires Final(s) && Around(s, s') && s' == s.(disks := s'.disks, audit := s'.audit)
    requires HasVerifiedJob(s.jobs, disk) && NoneVerified(s.disks, s'.disks - {disk})
    ensures Final(s') && forall j :: j in s.jobs ==> Untouched(s, s', j)
  {
    forall d | d in s'.disks && s'.disks[d].status == DiskVerified ensures HasVerifiedJob(s'.jobs, d) {
      assert d != disk ==> d in s'.disks - {disk};
    }
    forall k ensures RunsStay(s, s', k) {}
    VerifiedRunsKept(s, s');
    CertificatesKept(s, s');
  }

  lemma RecordStep(s: Store, r: Runner, run: Run)
    requires Final(s) && Stands(s, r) && r.pc.DiskMarked? && CleanRun(run, STANDARDS[r.jobRow.standard], r.pc.bytes)
    ensures var s' := CompleteJob(s, r.job, JobVerified, run).store;
            Final(s') && Others(s, s', r.job) && Stands(s', r.(pc := Recorded(r.pc.bytes)))
  {
    var s' := CompleteJob(s, r.job, JobVerified, run).store;
    assert s'.jobs == s.jobs;
    RecordedRun(s, s', r.job, run.(attempt := s.jobs[r.job].attempt));
    var runs := RunsOf(s', r.job);
    assert CleanRun(runs[|RunsOf(s, r.job)|], STANDARDS[r.jobRow.standard], r.pc.bytes);
  }

  lemma RecordedRun(s: Store, s': Store, own: Id, run: Run)
    requires Final(s) && RunRests(run, own, s.jobs, s.audit)
    requires s' == s.(runs := s.runs[own := RunsOf(s, own) + [run]])
    ensures Final(s') && forall j :: j in s.jobs && j != own ==> Untouched(s, s', j)
  {
    forall j, i | j in s'.runs && 0 <= i < |s'.runs[j]| && s'.runs[j][i].verdict == RunVerified
      ensures RunRests(s'.runs[j][i], j, s'.jobs, s'.audit)
    {
      if j in s.runs && i < |s.runs[j]| {
        assert s'.runs[j][i] == s.runs[j][i];
      } else {
        assert j == own && s'.runs[j][i] == run;
      }
    }
    CertificatesKept(s, s');
  }

  lemma CertifyStep(s: Store, r: Runner, day: string)
    requires Final(s) && Stands(s, r) && r.pc.Recorded? && r.diskRow.asset in s.assets && CertNumber.IsDay(day)
    ensures var reply := SaveCertificate(s, CertificateNumber(s, r, day), CertificateOf(r, STANDARDS[r.jobRow.standard], r.pc.bytes));
            && Final(reply.store) && Others(s, reply.store, r.job)
            && (reply.out == Ok ==> Stands(reply.store, r.(pc := Certified)))
  {
    var std := STANDARDS[r.jobRow.standard];
    BuiltInStandards(r.jobRow.standard);
    var certNo := CertificateNumber(s, r, day);
    var c := CertificateOf(r, std, r.pc.bytes);
    var reply := SaveCertificate(s, certNo, c);
    if certNo !in s.certs {
      var row := Audit(c.operator, IssueCertificate, CertificateEntity, certNo);
      NewCertificate(s, r, day);
      IssuedCertificate(s, certNo, c, row);
      assert reply.store == s.(certs := s.certs[certNo := c], audit := s.audit + [row]);
      CertifiedStands(s, reply.store, r);
    } else {
      assert reply == Reply(s, Conflict);
      OthersReflexive(s, r.job);
    }
  }

  lemma NewCertificate(s: Store, r: Runner, day: string)
    requires Stands(s, r) && r.pc.Recorded? && r.diskRow.asset in s.assets && CertNumber.IsDay(day)
    ensures var certNo := CertificateNumber(s, r, day);
            var c := CertificateOf(r, STANDARDS[r.jobRow.standard], r.pc.bytes);
            var row := Audit(c.operator, IssueCertificate, CertificateEntity, certNo);
            CertificateRests(s.(certs := s.certs[certNo := c], audit := s.audit + [row]), certNo, c)
  {
    BuiltInStandards(r.jobRow.standard);
    var certNo := CertificateNumber(s, r, day);
    var c := CertificateOf(r, STANDARDS[r.jobRow.standard], r.pc.bytes);
    IssuedNow(s.audit, c.disk, Audit(c.operator, IssueCertificate, CertificateEntity, certNo));
    assert NumberedFor(certNo, s.assets[c.asset].tag, s.disks[c.disk].serial, s.jobs[c.job].attempt);
  }

  lemma CertifiedStands(s: Store, s': Store, r: Runner)
    requires Stands(s, r) && r.pc.Recorded? && s.audit <= s'.audit && s' == s.(certs := s'.certs, audit := s'.audit)
    ensures Stands(s', r.(pc := Certified))
  {
    LongerLog(s.audit, s'.audit, r.jobRow.disk);
  }

  lemma IssuedCertificate(s: Store, certNo: string, c: Certificate, row: Audit)
    requires Final(s) && certNo !in s.certs && Uncertified(s.certs, c.job)
    requires CertificateRests(s.(certs := s.certs[certNo := c], audit := s.audit + [row]), certNo, c)
    ensures var s' := s.(certs := s.certs[certNo := c], audit := s.audit + [row]); Final(s') && Others(s, s', c.job)
  {
    var s' := s.(certs := s.certs[certNo := c], audit := s.audit + [row]);
    IssuedOthers(s, s', certNo, c);
    OneMoreCertificate(s, s', certNo, c);
  }

  lemma IssuedOthers(s: Store, s': Store, certNo: string, c: Certificate)
    requires VerifiedRuns(s.runs, s.jobs, s.audit) && certNo !in s.certs && s.audit <= s'.audit
    requires s' == s.(certs := s.certs[certNo := c], audit := s'.audit)
    ensures VerifiedRuns(s'.runs, s'.jobs, s'.audit) && Others(s, s', c.job)
  {
    forall j ensures RunsStay(s, s', j) && (j in s.jobs ==> Untouched(s, s', j)) {}
    VerifiedRunsKept(s, s');
    NewKey(s.certs, certNo, c);
  }

  lemma OneMoreCertificate(s: Store, s': Store, certNo: string, c: Certificate)
    requires Certificates(s) && Uncertified(s.certs, c.job) && Around(s, s') && CertificateRests(s', certNo, c)
    requires s' == s.(certs := s.certs[certNo := c], audit := s'.audit)
    ensures Certificates(s')
  {
    EarlierStillRest(s, s');
    OnePerJobPut(s.certs, certNo, c);
  }

  lemma EarlierStillRest(s: Store, s': Store)
    requires Certificates(s) && Around(s, s') && s'.jobs == s.jobs && s'.runs == s.runs
    ensures forall n :: n in s.certs ==> CertificateRests(s', n, s.certs[n])
  {
    forall n | n in s.certs ensures CertificateRests(s', n, s.certs[n]) {
      CertificateStillRests(s, s', n, s.certs[n]);
    }
  }

  lemma OnePerJobPut(certs: map<string, Certificate>, certNo: string, c: Certificate)
    requires OnePerJob(certs) && Uncertified(certs, c.job)
    ensures OnePerJob(certs[certNo := c])
  {}

  lemma IssuedNow(log: seq<Audit>, disk: Id, row: Audit)
    requires WasVerified(log, disk) && IssueRow(row, row.id)
    ensures IssuedAfterMark(log + [row], disk, row.id)
  {
    var i :| 0 <= i < |log| && MarkRow(log[i], disk);
    assert MarkRow((log + [row])[i], disk) && IssueRow((log + [row])[|log|], row.id);
  }

  lemma AssetStep(s: Store, asset: Id, to: AssetStatus, actor: string, action: Action, own: Id)
    requires Final(s)
    ensures var s' := TransitionAsset(s, asset, to, actor, action).store;
            Final(s') && Others(s, s', own) && (forall r :: Stands(s, r) ==> Stands(s', r))
  {
    AssetsForward(s, asset, to, actor, action);
    AroundStep(s, TransitionAsset(s, asset, to, actor, action).store, own);
  }

  lemma AssetsForward(s: Store, asset: Id, to: AssetStatus, actor: string, action: Action)
    ensures var s' := TransitionAsset(s, asset, to, actor, action).store;
            AssetsAdvance(s.assets, s'.assets) && s' == s.(assets := s'.assets, audit := s'.audit) && s.audit <= s'.audit
  {
    var s' := TransitionAsset(s, asset, to, actor, action).store;
    if s' != s {
      AssetPut(s.assets, asset, s'.assets[asset]);
    }
  }

  lemma StartMove(s: Store, r: Runner, move: Move, s': Store, pc': Pc)
    requires Final(s) && Stands(s, r) && !Late(r.pc) && r.pc != Working && Step(s, r, move, s', pc')
    ensures Final(s') && Others(s, s', r.job) && (pc' != Gone ==> Stands(s', r.(pc := pc')))
  {
    match move
    case FailBefore(run) => FailStep(s, r, run);
    case MarkRunning(now) => MarkStep(s, r, now);
    case MarkDisk => MarkDiskStep(s, r);
    case FailDisk => DiskStep(s, r.jobRow.disk, DiskFailed, r.name, r.job);
    case _ =>
  }

  lemma WorkingMove(s: Store, r: Runner, move: Move, s': Store, pc': Pc)
    requires Final(s) && Stands(s, r) && r.pc == Working && Step(s, r, move, s', pc')
    ensures Final(s') && Others(s, s', r.job) && (pc' != Gone ==> Stands(s', r.(pc := pc')))
  {
    match move
    case Progress(pass, offset, total, verifying, now) => ProgressStep(s, r, pass, offset, total, verifying, now);
    case Interrupted(run) => InterruptStep(s, r, run);
    case FailRun(run) => FailStep(s, r, run);
    case MismatchFound(run) => FailStep(s, r, run);
    case SaveVerified(size, bytes, now) => SaveVerifiedStep(s, r, size, bytes, now);
    case _ =>
  }

  lemma LateMove(s: Store, r: Runner, move: Move, s': Store, pc': Pc)
    requires Final(s) && Stands(s, r) && Late(r.pc) && Step(s, r, move, s', pc')
    ensures Final(s') && Others(s, s', r.job) && (pc' != Gone ==> Stands(s', r.(pc := pc')))
  {
    match r.pc
    case Saved(_) => MarkVerifiedStep(s, r);
    case DiskMarked(_) => RecordStep(s, r, move.run);
    case Recorded(_) => RecordedMove(s, r, move, s', pc');
    case Certified => OthersReflexive(s, r.job);
    case Listed => AssetStep(s, r.diskRow.asset, AssetErasureDone, r.name, ErasureVerified, r.job);
  }

  lemma RecordedMove(s: Store, r: Runner, move: Move, s': Store, pc': Pc)
    requires Final(s) && Stands(s, r) && r.pc.Recorded? && Step(s, r, move, s', pc')
    ensures Final(s') && Others(s, s', r.job) && (pc' != Gone ==> Stands(s', r.(pc := pc')))
  {
    if move.Certify? {
      CertifyStep(s, r, move.day);
    } else {
      OthersReflexive(s, r.job);
    }
  }

  /** Every move of a run keeps the invariant, keeps the run in step with the store, and disturbs no other job. */
  lemma MoveKeepsFinal(s: Store, r: Runner, move: Move, s': Store, pc': Pc)
    requires Final(s) && Stands(s, r) && Step(s, r, move, s', pc')
    ensures Final(s') && Others(s, s', r.job) && (pc' != Gone ==> Stands(s', r.(pc := pc')))
  {
    if Late(r.pc) {
      LateMove(s, r, move, s', pc');
    } else if r.pc == Working {
      WorkingMove(s, r, move, s', pc');
    } else {
      StartMove(s, r, move, s', pc');
    }
  }

  // ---- claims and service calls ----

  lemma ClaimOnly(s: Store, logged: Store, j: Id, worker: string, now: nat)
    requires j in s.jobs && logged == s.Log(worker, AcquireJobAction, JobEntity, j)
    ensures OnlyJob(logged, Claim(s, j, worker, now), j)
  {}

  lemma OthersThen(a: Store, b: Store, c: Store, own: Id)
    requires Others(a, b, own) && Others(b, c, own) && SameJobs(a, b)
    ensures Others(a, c, own)
  {
    RowsTransitive(a, b, c);
    forall k | k in a.jobs && k != own ensures Untouched(a, c, k) {
      assert Untouched(b, c, k);
    }
  }

  lemma ClaimStep(s: Store, j: Id, worker: string, now: nat)
    requires Final(s) && j in s.jobs && s.jobs[j].status != JobVerified
    ensures var s' := Claim(s, j, worker, now); Final(s') && Others(s, s', j)
  {
    var logged := s.Log(worker, AcquireJobAction, JobEntity, j);
    AroundStep(s, logged, j);
    var s' := Claim(s, j, worker, now);
    ClaimOnly(s, logged, j, worker, now);
    JobStep(logged, s', j);
    OthersThen(s, logged, s', j);
  }

  lemma VerifiedRunMeansVerified(s: Store, j: Id, i: nat)
    requires VerifiedRuns(s.runs, s.jobs, s.audit) && i < |RunsOf(s, j)| && RunsOf(s, j)[i].verdict == RunVerified
    ensures RunRests(RunsOf(s, j)[i], j, s.jobs, s.audit)
  {
    assert s.runs[j][i].verdict == RunVerified;
  }

  /** A certificate stands for a verified job. */
  lemma CertifiedMeansVerified(s: Store, certNo: string)
    requires VerifiedRuns(s.runs, s.jobs, s.audit) && Certificates(s) && certNo in s.certs
    ensures var c := s.certs[certNo]; c.job in s.jobs && s.jobs[c.job].status == JobVerified
  {
    var c := s.certs[certNo];
    assert CertificateRests(s, certNo, c);
    var i :| 0 <= i < |RunsOf(s, c.job)| && CleanRun(RunsOf(s, c.job)[i], STANDARDS[c.standard], c.verifyBytes);
    VerifiedRunMeansVerified(s, c.job, i);
  }

  /** A run that starts from a claim is in step with the store. */
  lemma ClaimedStands(s: Store, r: Runner)
    requires VerifiedRuns(s.runs, s.jobs, s.audit) && Certificates(s) && r.job in s.jobs && r.pc == Claimed
    requires s.jobs[r.job].status != JobVerified && r.jobRow == s.jobs[r.job]
    requires r.jobRow.disk in s.disks && r.diskRow == s.disks[r.jobRow.disk]
    ensures Stands(s, r)
  {
    forall i | 0 <= i < |RunsOf(s, r.job)| && RunsOf(s, r.job)[i].verdict == RunVerified ensures false {
      VerifiedRunMeansVerified(s, r.job, i);
    }
    forall n | n in s.certs ensures s.certs[n].job != r.job {
      CertifiedMeansVerified(s, n);
    }
  }

  /** What a service call can do to jobs, runs, certificates and verified disks: end open jobs, nothing else. */
  ghost predicate Calm(s: Store, s': Store) {
    && Around(s, s') && s'.certs == s.certs && s'.checkpoints == s.checkpoints && NoneVerified(s.disks, s'.disks)
    && (forall j :: j in s.jobs ==> Untouched(s, s', j)) && (forall j :: RunsStay(s, s', j))
  }

  lemma CalmKeepsFinal(s: Store, s': Store)
    requires Final(s) && Calm(s, s') && s'.jobs.Keys == s.jobs.Keys
    ensures Final(s')
  {
    forall j | j in s.jobs ensures KeepsOn(s, s', j) {
      assert Untouched(s, s', j);
    }
    UneventfulKeepsFinal(s, s');
  }

  ghost predicate SameJobs(s: Store, s': Store) {
    s'.jobs == s.jobs && s'.checkpoints == s.checkpoints && s'.runs == s.runs && s'.certs == s.certs
  }

  lemma CalmAround(s: Store, s': Store)
    requires SameJobs(s, s') && Around(s, s') && NoneVerified(s.disks, s'.disks)
    ensures Calm(s, s')
  {
    forall j ensures RunsStay(s, s', j) && (j in s.jobs ==> Untouched(s, s', j)) {}
  }

  lemma CalmThen(a: Store, b: Store, c: Store)
    requires Calm(a, b) && SameJobs(b, c) && Around(b, c) && NoneVerified(b.disks, c.disks)
    ensures Calm(a, c)
  {
    RowsTransitive(a, b, c);
    forall j ensures RunsStay(a, c, j) && (j in a.jobs ==> Untouched(a, c, j)) {
      assert RunsStay(a, b, j);
      assert j in a.jobs ==> Untouched(a, b, j);
    }
  }

  lemma RegisterCalm(s: Store, tag: string, owner: string, operator: string, id: Id)
    requires Final(s) && id !in s.assets
    ensures var s' := Register(s, tag, owner, operator, id).store; Calm(s, s') && Final(s')
  {
    var s' := Register(s, tag, owner, operator, id).store;
    assert s' == s || s' == s.(assets := s.assets[id := s'.assets[id]], tags := s'.tags, audit := s.audit + [s'.audit[|s.audit|]]);
    CalmAround(s, s');
    CalmKeepsFinal(s, s');
  }

  lemma ApprovalCallCalm(s: Store, s': Store)
    requires Final(s) && RequestsOnly(s, s')
    ensures Calm(s, s') && Final(s')
  {
    CalmAround(s, s');
    CalmKeepsFinal(s, s');
  }

  /** Calls on requests touch nothing else but the log. */
  ghost predicate RequestsOnly(s: Store, s': Store) {
    s.audit <= s'.audit && s' == s.(approvals := s'.approvals, audit := s'.audit)
  }

  lemma RequestPut(s: Store, id: Id, a: Approval, row: Audit)
    ensures RequestsOnly(s, s.(approvals := s.approvals[id := a], audit := s.audit + [row]))
  {}

  lemma SubmitOnly(s: Store, asset: Id, standard: string, route: string, operator: string, id: Id, version: nat)
    ensures RequestsOnly(s, Submit(s, asset, standard, route, operator, id, version).store)
  {
    var s' := Submit(s, asset, standard, route, operator, id, version).store;
    if s' != s {
      RequestPut(s, id, s'.approvals[id], Audit(operator, SubmitApproval, ApprovalEntity, id));
    }
  }

  lemma ReviewOnly(s: Store, id: Id, reviewer: string, approve: bool, note: string)
    ensures RequestsOnly(s, Review(s, id, reviewer, approve, note).store)
  {
    var s' := Review(s, id, reviewer, approve, note).store;
    if s' != s {
      RequestPut(s, id, s'.approvals[id], s'.audit[|s.audit|]);
    }
  }

  lemma WithdrawOnly(s: Store, id: Id, operator: string)
    ensures RequestsOnly(s, Withdraw(s, id, operator).store)
  {
    var s' := Withdraw(s, id, operator).store;
    if s' != s {
      RequestPut(s, id, s'.approvals[id], Audit(operator, WithdrawApprovalAction, ApprovalEntity, id));
    }
  }

  lemma PullCalm(s: Store, asset: Id, operator: string, inputs: seq<DiskInput>, ids: seq<Id>, found: Option<Id>)
    requires Final(s) && |ids| == |inputs| && FreshIds(s, ids)
    ensures var s' := Pull(s, asset, operator, inputs, ids, found).store; Calm(s, s') && Final(s')
  {
    PullOnlyAdds(s, asset, operator, inputs, ids, found);
    CalmKeepsFinal(s, Pull(s, asset, operator, inputs, ids, found).store);
  }

  lemma PullOnlyAdds(s: Store, asset: Id, operator: string, inputs: seq<DiskInput>, ids: seq<Id>, found: Option<Id>)
    requires |ids| == |inputs| && FreshIds(s, ids)
    ensures var s' := Pull(s, asset, operator, inputs, ids, found).store; Calm(s, s') && s'.jobs == s.jobs
  {
    CalmAround(s, s);
    if asset in s.assets {
      AddedCalm(s, asset, operator, inputs, ids, Accepted(inputs));
      var mid := AddDisks(s, asset, operator, inputs, ids, Accepted(inputs));
      var moved := TransitionAsset(mid, asset, AssetDiskPulled, operator, PullDisksAction).store;
      AssetsForward(mid, asset, AssetDiskPulled, operator, PullDisksAction);
      CalmThen(s, mid, moved);
      PullParts(s, asset, operator, inputs, ids, found);
    }
  }

  lemma PullParts(s: Store, asset: Id, operator: string, inputs: seq<DiskInput>, ids: seq<Id>, found: Option<Id>)
    requires |ids| == |inputs| && asset in s.assets
    ensures var s' := Pull(s, asset, operator, inputs, ids, found).store;
            var mid := AddDisks(s, asset, operator, inputs, ids, Accepted(inputs));
            s' == s || s' == mid || s' == TransitionAsset(mid, asset, AssetDiskPulled, operator, PullDisksAction).store
  {}

  lemma AddedCalm(s: Store, asset: Id, operator: string, inputs: seq<DiskInput>, ids: seq<Id>, n: nat)
    requires asset in s.assets && |ids| == |inputs| && n <= |inputs| && FreshIds(s, ids)
    ensures var mid := AddDisks(s, asset, operator, inputs, ids, n); Calm(s, mid) && mid.jobs == s.jobs
  {
    Gate.AddedDisks(s, asset, operator, inputs, ids, n);
    CalmAround(s, AddDisks(s, asset, operator, inputs, ids, n));
  }

  lemma ScrapCalm(s: Store, disk: Id, operator: string)
    requires Final(s)
    ensures var s' := Scrap(s, disk, operator).store; Calm(s, s') && Final(s')
  {
    ScrapOnlyEnds(s, disk, operator);
    CalmKeepsFinal(s, Scrap(s, disk, operator).store);
  }

  lemma ScrapOnlyEnds(s: Store, disk: Id, operator: string)
    ensures var s' := Scrap(s, disk, operator).store; Calm(s, s') && s'.jobs.Keys == s.jobs.Keys
  {
    CalmAround(s, s);
    EndedCalm(s, disk, operator);
    Gate.ScrapParts(s, disk, operator);
    if disk in s.disks {
      var ended := Gate.Ended(s, disk, operator);
      AssetsForward(ended, s.disks[disk].asset, AssetScrapped, operator, ScrapAsset);
      CalmThen(s, ended, Gate.ScrappedAway(s, disk, operator));
    }
  }

  lemma EndedCalm(s: Store, disk: Id, operator: string)
    ensures var ended := Gate.Ended(s, disk, operator); Calm(s, ended) && ended.jobs.Keys == s.jobs.Keys
  {
    DiskMoved(s, disk, DiskScrapped, operator);
    TerminateCalm(s, UpdateDiskStatus(s, disk, DiskScrapped, operator).store, disk);
  }

  lemma TerminateCalm(s: Store, marked: Store, disk: Id)
    requires Around(s, marked) && NoneVerified(s.disks, marked.disks)
    requires marked == s.(disks := marked.disks, audit := marked.audit)
    ensures Calm(s, Terminate(marked, OpenJobs(marked, disk)))
  {
    var js := OpenJobs(marked, disk);
    var ended := Terminate(marked, js);
    forall j ensures RunsStay(s, ended, j) {
      if j in js {
        assert RunsOf(ended, j) == RunsOf(s, j) + [ServiceRules.TERMINATED.(attempt := s.jobs[j].attempt)];
      } else {
        assert RunsOf(ended, j) == RunsOf(s, j);
      }
    }
    forall j | j in s.jobs ensures Untouched(s, ended, j) {}
  }

  lemma ConfirmCalm(s: Store, asset: Id, route: string, receiver: string, operator: string, found: Option<Id>)
    requires Final(s)
    ensures var s' := Confirm(s, asset, route, receiver, operator, found).store; Calm(s, s') && Final(s')
  {
    var s' := Confirm(s, asset, route, receiver, operator, found).store;
    if s' != s {
      AssetPut(s.assets, asset, s'.assets[asset]);
      assert s' == s.(disposals := s'.disposals, assets := s.assets[asset := s'.assets[asset]],
                      audit := s.audit + [s'.audit[|s.audit|]]);
    }
    CalmAround(s, s');
    CalmKeepsFinal(s, s');
  }

  lemma CreateJobCalm(s: Store, id: Id, job: Job, now: nat)
    requires Final(s) && id !in s.jobs && id !in s.checkpoints && job.disk in s.disks && job.status == JobPending
    requires job.standard in STANDARDS
    requires job.attempt == |JobsOf(s, job.disk)|
    ensures var s' := CreateJob(s, id, job, now).store; Calm(s, s') && Final(s')
  {
    var s' := CreateJob(s, id, job, now).store;
    var row := Audit(job.createdBy, CreateJobAction, JobEntity, id);
    assert s' == s.(jobs := s.jobs[id := job.(createdAt := now)], audit := s.audit + [row]);
    NewJob(s, s', id, job.(createdAt := now));
  }

  lemma NewJob(s: Store, s': Store, id: Id, job: Job)
    requires Final(s) && id !in s.jobs && id !in s.checkpoints && job.status == JobPending
    requires job.standard in STANDARDS
    requires job.attempt == |JobsOf(s, job.disk)| && s.audit <= s'.audit
    requires s' == s.(jobs := s.jobs[id := job], audit := s'.audit)
    ensures Calm(s, s') && Final(s')
  {
    NewJobCalm(s, s', id, job);
    AttemptsPut(s.jobs, id, job, JobsOf(s, job.disk));
    VerifiedDisksKept(s.disks, s'.disks, s.jobs, s'.jobs);
    VerifiedRunsKept(s, s');
    CertificatesKept(s, s');
  }

  lemma NewJobCalm(s: Store, s': Store, id: Id, job: Job)
    requires id !in s.jobs && s.audit <= s'.audit && s' == s.(jobs := s.jobs[id := job], audit := s'.audit)
    ensures Calm(s, s') && forall j :: j in s.jobs ==> SameTerms(s, s', j)
  {
    forall j ensures RunsStay(s, s', j) && (j in s.jobs ==> Untouched(s, s', j) && SameTerms(s, s', j)) {}
  }

  lemma OrdersPut(jobs: map<Id, Job>, id: Id, job: Job, disk: Id)
    requires id !in jobs
    ensures OrdersOf(jobs[id := job], disk) == OrdersOf(jobs, disk) + (if disk == job.disk then {id} else {})
    ensures |OrdersOf(jobs[id := job], disk)| == |OrdersOf(jobs, disk)| + (if disk == job.disk then 1 else 0)
  {
    assert OrdersOf(jobs[id := job], disk) == OrdersOf(jobs, disk) + (if disk == job.disk then {id} else {});
  }

  lemma AttemptsPut(jobs: map<Id, Job>, id: Id, job: Job, earlier: set<Id>)
    requires Attempts(jobs) && id !in jobs && job.standard in STANDARDS && earlier == OrdersOf(jobs, job.disk) && job.attempt == |earlier|
    ensures Attempts(jobs[id := job])
  {
    var after := jobs[id := job];
    forall j | j in after ensures after[j].attempt < |OrdersOf(after, after[j].disk)| {
      OrdersPut(jobs, id, job, after[j].disk);
    }
    forall j, k | j in after && k in after && SameAttempt(after, j, k) ensures j == k {
      if j != id && k != id {
        assert SameAttempt(jobs, j, k);
      }
    }
  }

  lemma OrderCalm(s: Store, disk: Id, standard: string, operator: string, id: Id, now: nat, found: Option<Id>)
    requires Final(s) && s.checkpoints.Keys <= s.jobs.Keys && id !in s.jobs
    ensures var s' := Order(s, disk, standard, operator, id, now, found).store; Calm(s, s') && Final(s')
  {
    var s' := Order(s, disk, standard, operator, id, now, found).store;
    if s' == s {
      CalmAround(s, s);
    } else {
      var job := Job(disk, STANDARDS[standard].code, JobPending, |JobsOf(s, disk)|, 0, 0, 0, operator, "", 0, now);
      var created := CreateJob(s, id, job, now).store;
      BuiltInStandards(standard);
      CreateJobCalm(s, id, job, now);
      AssetsForward(created, s.disks[disk].asset, AssetErasing, operator, StartErasing);
      CalmThen(s, created, s');
      AroundStep(created, s', id);
    }
  }

  /** Every service call keeps the invariant and leaves every run in progress in step with the store. */
  lemma CallKeepsFinal(s: Store, call: Call)
    requires Final(s) && s.checkpoints.Keys <= s.jobs.Keys && Permitted(s, call)
    ensures Final(Perform(s, call)) && Calm(s, Perform(s, call))
  {
    match call
    case CallRegister(tag, owner, operator, id) => RegisterCalm(s, tag, owner, operator, id);
    case CallSubmit(asset, standard, route, operator, id, version) =>
      SubmitOnly(s, asset, standard, route, operator, id, version);
      ApprovalCallCalm(s, Submit(s, asset, standard, route, operator, id, version).store);
    case CallReview(id, reviewer, approve, note) =>
      ReviewOnly(s, id, reviewer, approve, note);
      ApprovalCallCalm(s, Review(s, id, reviewer, approve, note).store);
    case CallWithdraw(id, operator) =>
      WithdrawOnly(s, id, operator);
      ApprovalCallCalm(s, Withdraw(s, id, operator).store);
    case CallPull(asset, operator, inputs, ids, found) => PullCalm(s, asset, operator, inputs, ids, found);
    case CallOrder(disk, standard, operator, id, now, found) =>
      OrderCalm(s, disk, standard, operator, id, now, found);
    case CallScrap(disk, operator) => ScrapCalm(s, disk, operator);
    case CallConfirm(asset, route, receiver, operator, found) =>
      ConfirmCalm(s, asset, route, receiver, operator, found);
  }
}
