/**
 * The store as a value, and what each of its operations does to it. Every operation runs under one lock, so
 * it is one atomic function of the store. Clock readings and generated ids are parameters; times are
 * nanoseconds and 0 is the zero time.
 */
module StoreModel {
  import opened Domain

  type Id = string

  datatype Asset = Asset(tag: string, owner: string, status: AssetStatus, registeredBy: string)

  datatype Disk = Disk(asset: Id, serial: string, path: string, status: DiskStatus, pulledBy: string)

  datatype Job = Job(
    disk: Id, standard: string, status: JobStatus, attempt: nat,
    pass: nat, done: nat, total: nat,
    createdBy: string, lockedBy: string, lockedAt: nat, createdAt: nat)

  datatype Checkpoint = Checkpoint(pass: nat, offset: nat, heartbeat: nat)

  datatype Verdict = RunVerified | RunFailed | RunInterrupted

  datatype Run = Run(
    attempt: nat, resumed: bool, wrote: nat,
    mode: VerifyMode, verifyBytes: nat, mismatches: nat, verdict: Verdict)

  datatype Certificate = Certificate(
    disk: Id, asset: Id, job: Id, standard: string, attempts: nat,
    mode: VerifyMode, verifyBytes: nat, operator: string)

  /** `route` is the disposal method: reuse, resale or destroy. */
  datatype Disposal = Disposal(route: string, receiver: string, operator: string)

  datatype Approval = Approval(
    asset: Id, standard: string, route: string, applicant: string,
    status: ApprovalStatus, reviewer: string, note: string, version: nat)

  datatype Entity = AssetEntity | DiskEntity | JobEntity | CertificateEntity | ApprovalEntity

  datatype Action =
    | RegisterAsset | PullDisksAction | StartErasing | ErasureVerified | ScrapAsset | SignDisposal
    | SetDiskStatus(status: DiskStatus) | ReverifyDisk
    | CreateJobAction | AcquireJobAction
    | IssueCertificate
    | SubmitApproval | ApproveApproval | RejectApproval | WithdrawApprovalAction

  datatype Audit = Audit(actor: string, action: Action, kind: Entity, id: string)

  datatype Store = Store(
    assets: map<Id, Asset>,
    tags: map<string, Id>,
    disks: map<Id, Disk>,
    jobs: map<Id, Job>,
    checkpoints: map<Id, Checkpoint>,
    runs: map<Id, seq<Run>>,
    certs: map<string, Certificate>,
    disposals: map<Id, Disposal>,
    approvals: map<Id, Approval>,
    audit: seq<Audit>)
  {
    function Log(actor: string, action: Action, kind: Entity, id: string): Store {
      this.(audit := audit + [Audit(actor, action, kind, id)])
    }
  }

  const EMPTY: Store := Store(map[], map[], map[], map[], map[], map[], map[], map[], map[], [])

  datatype Outcome = Ok | NotFound | Conflict

  datatype Reply = Reply(store: Store, out: Outcome)

  // ---- assets ----

  function CreateAsset(s: Store, id: Id, a: Asset): Reply {
    if a.tag in s.tags then Reply(s, Conflict)
    else
      Reply(s.(assets := s.assets[id := a], tags := s.tags[a.tag := id])
             .Log(a.registeredBy, RegisterAsset, AssetEntity, id), Ok)
  }

  function TransitionAsset(s: Store, id: Id, to: AssetStatus, actor: string, action: Action): Reply {
    if id !in s.assets then Reply(s, NotFound)
    else if !CanTransitionAsset(s.assets[id].status, to) then Reply(s, Conflict)
    else
      Reply(s.(assets := s.assets[id := s.assets[id].(status := to)]).Log(actor, action, AssetEntity, id), Ok)
  }

  // ---- disks ----

  function CreateDisk(s: Store, id: Id, d: Disk): Reply {
    if d.asset !in s.assets then Reply(s, NotFound)
    else Reply(s.(disks := s.disks[id := d]), Ok)
  }

  function UpdateDiskStatus(s: Store, id: Id, status: DiskStatus, actor: string): Reply {
    if id !in s.disks then Reply(s, NotFound)
    else
      Reply(s.(disks := s.disks[id := s.disks[id].(status := status)])
             .Log(actor, SetDiskStatus(status), DiskEntity, id), Ok)
  }

  // ---- jobs ----

  function CreateJob(s: Store, id: Id, j: Job, now: nat): Reply {
    if j.disk !in s.disks then Reply(s, NotFound)
    else
      Reply(s.(jobs := s.jobs[id := j.(createdAt := now)]).Log(j.createdBy, CreateJobAction, JobEntity, id), Ok)
  }

  function OrdersOf(jobs: map<Id, Job>, disk: Id): (ids: set<Id>)
    ensures ids <= jobs.Keys
  {
    set j | j in jobs && jobs[j].disk == disk
  }

  function JobsOf(s: Store, disk: Id): (ids: set<Id>)
    ensures ids <= s.jobs.Keys
  {
    OrdersOf(s.jobs, disk)
  }

  const SECOND: nat := 1_000_000_000

  /** The later of the acquisition time and the last checkpoint's heartbeat. */
  function Heartbeat(s: Store, j: Id): nat
    requires j in s.jobs
  {
    if j in s.checkpoints && s.checkpoints[j].heartbeat > s.jobs[j].lockedAt then s.checkpoints[j].heartbeat
    else s.jobs[j].lockedAt
  }

  predicate InFlight(status: JobStatus) {
    status == JobRunning || status == JobVerifying
  }

  /** A running job that `worker` may take over; `staleAfter == 0` is the mode of a starting process. */
  predicate Orphan(s: Store, j: Id, worker: string, staleAfter: nat, now: nat)
    requires j in s.jobs
  {
    && InFlight(s.jobs[j].status)
    && s.jobs[j].lockedBy != worker
    && (staleAfter == 0 || Heartbeat(s, j) == 0 || now - Heartbeat(s, j) > staleAfter * SECOND)
  }

  predicate Eligible(s: Store, j: Id, worker: string, staleAfter: nat, now: nat)
    requires j in s.jobs
  {
    s.jobs[j].status == JobPending || Orphan(s, j, worker, staleAfter, now)
  }

  function Claim(s: Store, j: Id, worker: string, now: nat): Store
    requires j in s.jobs
  {
    var job := s.jobs[j];
    var status := if job.status == JobPending then JobRunning else job.status;
    s.(jobs := s.jobs[j := job.(status := status, lockedBy := worker, lockedAt := now)])
     .Log(worker, AcquireJobAction, JobEntity, j)
  }

  /** What one claim may do; the store looks at its jobs in an arbitrary order. */
  ghost predicate Acquired(s: Store, worker: string, staleAfter: nat, now: nat, s': Store, picked: Option<Id>) {
    match picked
    case None =>
      s' == s && forall j :: j in s.jobs ==> !Eligible(s, j, worker, staleAfter, now)
    case Some(j) =>
      && j in s.jobs && Eligible(s, j, worker, staleAfter, now)
      && s' == Claim(s, j, worker, now)
      && ((forall o :: o in s.jobs ==> !Orphan(s, o, worker, staleAfter, now)) ==>
            forall p :: p in s.jobs && s.jobs[p].status == JobPending ==> s.jobs[j].createdAt <= s.jobs[p].createdAt)
  }

  function MarkJobRunning(s: Store, j: Id, attempt: nat, now: nat): Reply {
    if j !in s.jobs then Reply(s, NotFound)
    else Reply(s.(jobs := s.jobs[j := s.jobs[j].(status := JobRunning, attempt := attempt, lockedAt := now)]), Ok)
  }

  function SaveProgress(s: Store, j: Id, pass: nat, offset: nat, total: nat, status: JobStatus, now: nat): Reply {
    if j !in s.jobs then Reply(s, NotFound)
    else
      Reply(s.(jobs := s.jobs[j := s.jobs[j].(pass := pass, done := offset, total := total, status := status)],
               checkpoints := s.checkpoints[j := Checkpoint(pass, offset, now)]), Ok)
  }

  function RunsOf(s: Store, j: Id): seq<Run> {
    if j in s.runs then s.runs[j] else []
  }

  function CompleteJob(s: Store, j: Id, status: JobStatus, run: Run): Reply {
    if j !in s.jobs then Reply(s, NotFound)
    else
      Reply(s.(jobs := s.jobs[j := s.jobs[j].(status := status)],
               runs := s.runs[j := RunsOf(s, j) + [run.(attempt := s.jobs[j].attempt)]]), Ok)
  }

  function RecordRun(s: Store, j: Id, run: Run): Reply {
    Reply(s.(runs := s.runs[j := RunsOf(s, j) + [run]]), Ok)
  }

  // ---- certificates and disposal ----

  function SaveCertificate(s: Store, certNo: string, c: Certificate): Reply {
    if certNo in s.certs then Reply(s, Conflict)
    else Reply(s.(certs := s.certs[certNo := c]).Log(c.operator, IssueCertificate, CertificateEntity, certNo), Ok)
  }

  function SaveDisposal(s: Store, asset: Id, d: Disposal): Reply {
    if asset in s.disposals then Reply(s, Conflict)
    else if asset !in s.assets then Reply(s, NotFound)
    else if !CanTransitionAsset(s.assets[asset].status, AssetDisposed) then Reply(s, Conflict)
    else
      Reply(s.(disposals := s.disposals[asset := d],
               assets := s.assets[asset := s.assets[asset].(status := AssetDisposed)])
             .Log(d.operator, SignDisposal, AssetEntity, asset), Ok)
  }

  // ---- approvals ----

  predicate ActiveFor(s: Store, asset: Id, id: Id) {
    id in s.approvals && s.approvals[id].asset == asset && Active(s.approvals[id].status)
  }

  predicate HasActive(s: Store, asset: Id) {
    exists id :: id in s.approvals && ActiveFor(s, asset, id)
  }

  function CreateApproval(s: Store, id: Id, a: Approval): Reply {
    if a.asset !in s.assets then Reply(s, NotFound)
    else if HasActive(s, a.asset) then Reply(s, Conflict)
    else Reply(s.(approvals := s.approvals[id := a]).Log(a.applicant, SubmitApproval, ApprovalEntity, id), Ok)
  }

  /** The result of looking up the active approval of an asset, in an arbitrary order. */
  ghost predicate FoundActive(s: Store, asset: Id, found: Option<Id>) {
    match found
    case Some(id) => ActiveFor(s, asset, id)
    case None => !HasActive(s, asset)
  }

  function ReviewApproval(s: Store, id: Id, to: ApprovalStatus, reviewer: string, note: string): Reply {
    if id !in s.approvals then Reply(s, NotFound)
    else if to != ApprovalApproved && to != ApprovalRejected then Reply(s, Conflict)
    else if !CanTransitionApproval(s.approvals[id].status, to) then Reply(s, Conflict)
    else
      Reply(s.(approvals := s.approvals[id := s.approvals[id].(status := to, reviewer := reviewer, note := note)])
             .Log(reviewer, if to == ApprovalRejected then RejectApproval else ApproveApproval, ApprovalEntity, id), Ok)
  }

  function WithdrawApproval(s: Store, id: Id, actor: string): Reply {
    if id !in s.approvals then Reply(s, NotFound)
    else
      var a := s.approvals[id];
      if !CanTransitionApproval(a.status, ApprovalWithdrawn) then Reply(s, Conflict)
      else if a.status == ApprovalApproved && a.asset in s.assets && s.assets[a.asset].status != AssetPending then
        Reply(s, Conflict)
      else
        Reply(s.(approvals := s.approvals[id := a.(status := ApprovalWithdrawn)])
               .Log(actor, WithdrawApprovalAction, ApprovalEntity, id), Ok)
  }

  function AppendAudit(s: Store, row: Audit): Reply {
    Reply(s.(audit := s.audit + [row]), Ok)
  }
}
