/**
 * What survives any interleaving of single store operations: the audit log as the source of truth, rows that
 * are only ever added, at most one active approval, reviews by somebody else, one disposal per disposed asset.
 */
module History {
  import opened Domain
  import opened StoreModel

  datatype Op =
    | OpCreateAsset(id: Id, asset: Asset)
    | OpTransition(id: Id, to: AssetStatus, actor: string, action: Action)
    | OpCreateDisk(id: Id, disk: Disk)
    | OpDiskStatus(id: Id, diskStatus: DiskStatus, actor: string)
    | OpCreateJob(id: Id, job: Job, now: nat)
    | OpClaim(id: Id, worker: string, now: nat)
    | OpMarkRunning(id: Id, attempt: nat, now: nat)
    | OpProgress(id: Id, pass: nat, offset: nat, total: nat, jobStatus: JobStatus, now: nat)
    | OpComplete(id: Id, jobStatus: JobStatus, run: Run)
    | OpRecord(id: Id, run: Run)
    | OpCertificate(certNo: string, cert: Certificate)
    | OpDisposal(id: Id, disposal: Disposal)
    | OpCreateApproval(id: Id, approval: Approval)
    | OpReview(id: Id, verdict: ApprovalStatus, reviewer: string, note: string)
    | OpWithdraw(id: Id, actor: string)
    | OpAudit(row: Audit)

  function Apply(s: Store, op: Op): Store {
    match op
    case OpCreateAsset(id, a) => CreateAsset(s, id, a).store
    case OpTransition(id, to, actor, action) => TransitionAsset(s, id, to, actor, action).store
    case OpCreateDisk(id, d) => CreateDisk(s, id, d).store
    case OpDiskStatus(id, status, actor) => UpdateDiskStatus(s, id, status, actor).store
    case OpCreateJob(id, j, now) => CreateJob(s, id, j, now).store
    case OpClaim(id, worker, now) => if id in s.jobs then Claim(s, id, worker, now) else s
    case OpMarkRunning(id, attempt, now) => MarkJobRunning(s, id, attempt, now).store
    case OpProgress(id, pass, offset, total, status, now) => SaveProgress(s, id, pass, offset, total, status, now).store
    case OpComplete(id, status, run) => CompleteJob(s, id, status, run).store
    case OpRecord(id, run) => RecordRun(s, id, run).store
    case OpCertificate(certNo, c) => SaveCertificate(s, certNo, c).store
    case OpDisposal(id, d) => SaveDisposal(s, id, d).store
    case OpCreateApproval(id, a) => CreateApproval(s, id, a).store
    case OpReview(id, to, reviewer, note) => ReviewApproval(s, id, to, reviewer, note).store
    case OpWithdraw(id, actor) => WithdrawApproval(s, id, actor).store
    case OpAudit(row) => AppendAudit(s, row).store
  }

  /** The audit action a caller passes with each target status. */
  function ActionFor(to: AssetStatus): Option<Action> {
    match to
    case AssetDiskPulled => Some(PullDisksAction)
    case AssetErasing => Some(StartErasing)
    case AssetErasureDone => Some(ErasureVerified)
    case AssetScrapped => Some(ScrapAsset)
    case _ => None
  }

  /**
   * What the callers of the store guarantee about the operations they issue. New ids are fresh (they are 128
   * random bits); a review has been checked against the applicant, which never changes.
   */
  predicate Issued(s: Store, op: Op) {
    match op
    case OpCreateAsset(id, a) => id !in s.assets && a.status == AssetPending
    case OpTransition(_, to, _, action) => ActionFor(to) == Some(action)
    case OpCreateDisk(id, d) => id !in s.disks && d.status == DiskPulled
    case OpCreateJob(id, j, _) => id !in s.jobs && j.status == JobPending
    case OpCreateApproval(id, a) => id !in s.approvals && a.status == ApprovalPending && a.reviewer == ""
    case OpReview(id, to, reviewer, note) =>
      && reviewer != "" && (id in s.approvals ==> reviewer != s.approvals[id].applicant)
      && (to == ApprovalRejected ==> note != "")
    case OpAudit(row) => row.action == ReverifyDisk && row.kind == DiskEntity && row.id in s.disks
    case _ => true
  }

  // ---- replaying the audit log ----

  function ImpliedAsset(row: Audit): Option<AssetStatus> {
    match row.action
    case RegisterAsset => Some(AssetPending)
    case PullDisksAction => Some(AssetDiskPulled)
    case StartErasing => Some(AssetErasing)
    case ErasureVerified => Some(AssetErasureDone)
    case ScrapAsset => Some(AssetScrapped)
    case SignDisposal => Some(AssetDisposed)
    case _ => None
  }

  function ImpliedApproval(row: Audit): Option<ApprovalStatus> {
    match row.action
    case SubmitApproval => Some(ApprovalPending)
    case ApproveApproval => Some(ApprovalApproved)
    case RejectApproval => Some(ApprovalRejected)
    case WithdrawApprovalAction => Some(ApprovalWithdrawn)
    case _ => None
  }

  function ReplayAsset(log: seq<Audit>, id: Id): Option<AssetStatus>
    decreases |log|
  {
    if |log| == 0 then None
    else
      var row := log[|log| - 1];
      if row.kind == AssetEntity && row.id == id && ImpliedAsset(row).Some? then ImpliedAsset(row)
      else ReplayAsset(log[..|log| - 1], id)
  }

  function ReplayDisk(log: seq<Audit>, id: Id): DiskStatus
    decreases |log|
  {
    if |log| == 0 then DiskPulled
    else
      var row := log[|log| - 1];
      if row.kind == DiskEntity && row.id == id && row.action.SetDiskStatus? then row.action.status
      else ReplayDisk(log[..|log| - 1], id)
  }

  function ReplayApproval(log: seq<Audit>, id: Id): Option<ApprovalStatus>
    decreases |log|
  {
    if |log| == 0 then None
    else
      var row := log[|log| - 1];
      if row.kind == ApprovalEntity && row.id == id && ImpliedApproval(row).Some? then ImpliedApproval(row)
      else ReplayApproval(log[..|log| - 1], id)
  }

  lemma {:induction false} ReplayUnknownDisk(log: seq<Audit>, id: Id)
    requires forall i :: 0 <= i < |log| ==> !(log[i].kind == DiskEntity && log[i].id == id)
    ensures ReplayDisk(log, id) == DiskPulled
    decreases |log|
  {
    if |log| > 0 {
      ReplayUnknownDisk(log[..|log| - 1], id);
    }
  }

  // ---- the invariant, field by field ----

  ghost predicate AssetsReplay(assets: map<Id, Asset>, log: seq<Audit>) {
    forall id :: id in assets ==> ReplayAsset(log, id) == Some(assets[id].status)
  }

  ghost predicate DisksReplay(disks: map<Id, Disk>, log: seq<Audit>) {
    && (forall id :: id in disks ==> ReplayDisk(log, id) == disks[id].status)
    && (forall i :: 0 <= i < |log| && log[i].kind == DiskEntity ==> log[i].id in disks)
  }

  ghost predicate ApprovalsReplay(approvals: map<Id, Approval>, log: seq<Audit>) {
    forall id :: id in approvals ==> ReplayApproval(log, id) == Some(approvals[id].status)
  }

  /** Replaying the log gives the current status of every asset, disk and approval. */
  ghost predicate Replays(s: Store) {
    AssetsReplay(s.assets, s.audit) && DisksReplay(s.disks, s.audit) && ApprovalsReplay(s.approvals, s.audit)
  }

  predicate BothActive(approvals: map<Id, Approval>, x: Id, y: Id)
    requires x in approvals && y in approvals
  {
    approvals[x].asset == approvals[y].asset && Active(approvals[x].status) && Active(approvals[y].status)
  }

  ghost predicate OneActive(approvals: map<Id, Approval>) {
    forall x, y :: x in approvals && y in approvals && BothActive(approvals, x, y) ==> x == y
  }

  predicate ProperlyReviewed(a: Approval) {
    && (a.status == ApprovalApproved || a.status == ApprovalRejected ==> a.reviewer != "")
    && (a.reviewer != "" ==> a.reviewer != a.applicant)
    && (a.status == ApprovalRejected ==> a.note != "")
  }

  ghost predicate Reviews(approvals: map<Id, Approval>) {
    forall id :: id in approvals ==> ProperlyReviewed(approvals[id])
  }

  /** An asset is disposed exactly when it has its disposal row. */
  ghost predicate Disposals(assets: map<Id, Asset>, disposals: map<Id, Disposal>) {
    && disposals.Keys <= assets.Keys
    && forall id :: id in assets ==> (assets[id].status == AssetDisposed <==> id in disposals)
  }

  ghost predicate Registered(assets: map<Id, Asset>) {
    forall id :: id in assets ==> assets[id].status != AssetInService
  }

  ghost predicate DisksKnown(disks: map<Id, Disk>, assets: map<Id, Asset>) {
    forall id :: id in disks ==> disks[id].asset in assets
  }

  ghost predicate JobsKnown(jobs: map<Id, Job>, disks: map<Id, Disk>) {
    forall id :: id in jobs ==> jobs[id].disk in disks
  }

  ghost predicate ApprovalsKnown(approvals: map<Id, Approval>, assets: map<Id, Asset>) {
    forall id :: id in approvals ==> approvals[id].asset in assets
  }

  ghost predicate References(s: Store) {
    && Registered(s.assets) && DisksKnown(s.disks, s.assets) && JobsKnown(s.jobs, s.disks)
    && ApprovalsKnown(s.approvals, s.assets) && s.checkpoints.Keys <= s.jobs.Keys
  }

  ghost predicate Sound(s: Store) {
    && Replays(s) && OneActive(s.approvals) && Reviews(s.approvals)
    && Disposals(s.assets, s.disposals) && References(s)
  }

  // ---- each operation keeps it ----

  lemma AssetLogged(assets: map<Id, Asset>, log: seq<Audit>, row: Audit)
    requires AssetsReplay(assets, log) && !(row.kind == AssetEntity && ImpliedAsset(row).Some?)
    ensures AssetsReplay(assets, log + [row])
  {
    assert (log + [row])[..|log|] == log;
  }

  lemma AssetSet(assets: map<Id, Asset>, log: seq<Audit>, id: Id, a: Asset, row: Audit)
    requires AssetsReplay(assets, log) && row.kind == AssetEntity && row.id == id && ImpliedAsset(row) == Some(a.status)
    ensures AssetsReplay(assets[id := a], log + [row])
  {
    assert (log + [row])[..|log|] == log;
  }

  lemma DiskLogged(disks: map<Id, Disk>, log: seq<Audit>, row: Audit)
    requires DisksReplay(disks, log) && (row.kind == DiskEntity ==> row.id in disks && !row.action.SetDiskStatus?)
    ensures DisksReplay(disks, log + [row])
  {
    assert (log + [row])[..|log|] == log;
  }

  lemma DiskSet(disks: map<Id, Disk>, log: seq<Audit>, id: Id, d: Disk, row: Audit)
    requires DisksReplay(disks, log) && row.kind == DiskEntity && row.id == id && row.action == SetDiskStatus(d.status)
    ensures DisksReplay(disks[id := d], log + [row])
  {
    assert (log + [row])[..|log|] == log;
  }

  lemma ApprovalLogged(approvals: map<Id, Approval>, log: seq<Audit>, row: Audit)
    requires ApprovalsReplay(approvals, log) && !(row.kind == ApprovalEntity && ImpliedApproval(row).Some?)
    ensures ApprovalsReplay(approvals, log + [row])
  {
    assert (log + [row])[..|log|] == log;
  }

  lemma ApprovalSet(approvals: map<Id, Approval>, log: seq<Audit>, id: Id, a: Approval, row: Audit)
    requires ApprovalsReplay(approvals, log) && row.kind == ApprovalEntity && row.id == id
    requires ImpliedApproval(row) == Some(a.status)
    ensures ApprovalsReplay(approvals[id := a], log + [row])
  {
    assert (log + [row])[..|log|] == log;
  }

  // ---- nothing that was recorded is lost or rewritten ----

  ghost predicate Extends<K, V>(m: map<K, V>, m': map<K, V>) {
    forall k :: k in m ==> k in m' && m'[k] == m[k]
  }

  ghost predicate RunsGrow(m: map<Id, seq<Run>>, m': map<Id, seq<Run>>) {
    forall k :: k in m ==> k in m' && m[k] <= m'[k]
  }

  ghost predicate AssetsAdvance(m: map<Id, Asset>, m': map<Id, Asset>) {
    forall k :: k in m ==> k in m' && Stage(m[k].status) <= Stage(m'[k].status) && m'[k] == m[k].(status := m'[k].status)
  }

  ghost predicate DisksStay(m: map<Id, Disk>, m': map<Id, Disk>) {
    forall k :: k in m ==> k in m' && m'[k] == m[k].(status := m'[k].status)
  }

  predicate SameOrder(a: Job, b: Job) {
    b.disk == a.disk && b.standard == a.standard && b.createdBy == a.createdBy && b.createdAt == a.createdAt
  }

  ghost predicate JobsStay(m: map<Id, Job>, m': map<Id, Job>) {
    forall k :: k in m ==> k in m' && SameOrder(m[k], m'[k])
  }

  predicate SameRequest(a: Approval, b: Approval) {
    b == a.(status := b.status, reviewer := b.reviewer, note := b.note)
  }

  ghost predicate ApprovalsStay(m: map<Id, Approval>, m': map<Id, Approval>) {
    forall k :: k in m ==> k in m' && SameRequest(m[k], m'[k])
  }

  ghost predicate Grows(s: Store, s': Store) {
    && s.audit <= s'.audit
    && Extends(s.certs, s'.certs) && Extends(s.disposals, s'.disposals) && RunsGrow(s.runs, s'.runs)
    && AssetsAdvance(s.assets, s'.assets) && DisksStay(s.disks, s'.disks)
    && JobsStay(s.jobs, s'.jobs) && ApprovalsStay(s.approvals, s'.approvals)
  }

  lemma LoggedElsewhere(s: Store, row: Audit)
    requires Replays(s) && (row.kind == JobEntity || row.kind == CertificateEntity)
    ensures Replays(s.(audit := s.audit + [row]))
  {
    AssetLogged(s.assets, s.audit, row);
    DiskLogged(s.disks, s.audit, row);
    ApprovalLogged(s.approvals, s.audit, row);
  }

  lemma CreateAssetSound(s: Store, id: Id, a: Asset)
    requires Sound(s) && id !in s.assets && a.status == AssetPending
    ensures Sound(CreateAsset(s, id, a).store)
  {
    var row := Audit(a.registeredBy, RegisterAsset, AssetEntity, id);
    AssetSet(s.assets, s.audit, id, a, row);
    DiskLogged(s.disks, s.audit, row);
    ApprovalLogged(s.approvals, s.audit, row);
    AssetKnownPut(s, id, a);
    DisposalsPut(s.assets, s.disposals, id, a);
  }

  lemma AssetKnownPut(s: Store, id: Id, a: Asset)
    requires References(s) && a.status != AssetInService
    ensures Registered(s.assets[id := a]) && DisksKnown(s.disks, s.assets[id := a])
    ensures ApprovalsKnown(s.approvals, s.assets[id := a])
  {}

  lemma DisposalsPut(assets: map<Id, Asset>, disposals: map<Id, Disposal>, id: Id, a: Asset)
    requires Disposals(assets, disposals) && a.status != AssetDisposed
    requires id in assets ==> assets[id].status != AssetDisposed
    ensures Disposals(assets[id := a], disposals)
  {}

  /** Moving an asset forward, by a transition or by signing its disposal. */
  lemma AssetMoved(s: Store, id: Id, to: AssetStatus, row: Audit, s': Store)
    requires Sound(s) && id in s.assets && CanTransitionAsset(s.assets[id].status, to) && to != AssetInService
    requires row.kind == AssetEntity && row.id == id && ImpliedAsset(row) == Some(to)
    requires s' == s.(assets := s.assets[id := s.assets[id].(status := to)], audit := s.audit + [row], disposals := s'.disposals)
    ensures Replays(s') && References(s')
  {
    AssetKnownPut(s, id, s'.assets[id]);
    AssetSet(s.assets, s.audit, id, s'.assets[id], row);
    DiskLogged(s.disks, s.audit, row);
    ApprovalLogged(s.approvals, s.audit, row);
  }

  lemma TransitionAssetSound(s: Store, id: Id, to: AssetStatus, actor: string, action: Action)
    requires Sound(s) && ActionFor(to) == Some(action)
    ensures var s' := TransitionAsset(s, id, to, actor, action).store; Sound(s')
  {
    if id in s.assets && CanTransitionAsset(s.assets[id].status, to) {
      var s' := TransitionAsset(s, id, to, actor, action).store;
      AssetMoved(s, id, to, Audit(actor, action, AssetEntity, id), s');
      DisposalsPut(s.assets, s.disposals, id, s'.assets[id]);
    }
  }

  lemma SaveDisposalSound(s: Store, id: Id, d: Disposal)
    requires Sound(s)
    ensures var s' := SaveDisposal(s, id, d).store; Sound(s')
  {
    var s' := SaveDisposal(s, id, d).store;
    if s' != s {
      AssetMoved(s, id, AssetDisposed, Audit(d.operator, SignDisposal, AssetEntity, id), s');
    }
  }

  lemma CreateDiskSound(s: Store, id: Id, d: Disk)
    requires Sound(s) && id !in s.disks && d.status == DiskPulled
    ensures var s' := CreateDisk(s, id, d).store; Sound(s')
  {
    ReplayUnknownDisk(s.audit, id);
  }

  lemma UpdateDiskStatusSound(s: Store, id: Id, status: DiskStatus, actor: string)
    requires Sound(s)
    ensures var s' := UpdateDiskStatus(s, id, status, actor).store; Sound(s')
  {
    if id in s.disks {
      var row := Audit(actor, SetDiskStatus(status), DiskEntity, id);
      AssetLogged(s.assets, s.audit, row);
      DiskSet(s.disks, s.audit, id, s.disks[id].(status := status), row);
      ApprovalLogged(s.approvals, s.audit, row);
    }
  }

  lemma JobKnownPut(jobs: map<Id, Job>, disks: map<Id, Disk>, id: Id, j: Job)
    requires JobsKnown(jobs, disks) && j.disk in disks
    ensures JobsKnown(jobs[id := j], disks) && jobs.Keys <= jobs[id := j].Keys
  {}

  lemma CreateJobSound(s: Store, id: Id, j: Job, now: nat)
    requires Sound(s) && id !in s.jobs
    ensures var s' := CreateJob(s, id, j, now).store; Sound(s')
  {
    if j.disk in s.disks {
      LoggedElsewhere(s, Audit(j.createdBy, CreateJobAction, JobEntity, id));
      JobKnownPut(s.jobs, s.disks, id, j.(createdAt := now));
    }
  }

  lemma ClaimSound(s: Store, j: Id, worker: string, now: nat)
    requires Sound(s) && j in s.jobs
    ensures var s' := Claim(s, j, worker, now); Sound(s')
  {
    LoggedElsewhere(s, Audit(worker, AcquireJobAction, JobEntity, j));
    JobKnownPut(s.jobs, s.disks, j, Claim(s, j, worker, now).jobs[j]);
  }

  /** One job row replaced, with its checkpoint and runs: nothing else looks at them. */
  lemma JobRowSound(s: Store, j: Id, job: Job, checkpoints: map<Id, Checkpoint>, runs: map<Id, seq<Run>>)
    requires Sound(s) && j in s.jobs && job.disk == s.jobs[j].disk && checkpoints.Keys <= s.jobs.Keys
    ensures Sound(s.(jobs := s.jobs[j := job], checkpoints := checkpoints, runs := runs))
  {
    JobKnownPut(s.jobs, s.disks, j, job);
  }

  lemma MarkJobRunningSound(s: Store, j: Id, attempt: nat, now: nat)
    requires Sound(s)
    ensures Sound(MarkJobRunning(s, j, attempt, now).store)
  {
    if j in s.jobs {
      JobRowSound(s, j, MarkJobRunning(s, j, attempt, now).store.jobs[j], s.checkpoints, s.runs);
    }
  }

  lemma SaveProgressSound(s: Store, j: Id, pass: nat, offset: nat, total: nat, status: JobStatus, now: nat)
    requires Sound(s)
    ensures Sound(SaveProgress(s, j, pass, offset, total, status, now).store)
  {
    if j in s.jobs {
      var s' := SaveProgress(s, j, pass, offset, total, status, now).store;
      JobRowSound(s, j, s'.jobs[j], s'.checkpoints, s.runs);
    }
  }

  lemma CompleteJobSound(s: Store, j: Id, status: JobStatus, run: Run)
    requires Sound(s)
    ensures Sound(CompleteJob(s, j, status, run).store)
  {
    if j in s.jobs {
      var s' := CompleteJob(s, j, status, run).store;
      JobRowSound(s, j, s'.jobs[j], s.checkpoints, s'.runs);
    }
  }

  lemma RecordRunSound(s: Store, j: Id, run: Run)
    requires Sound(s)
    ensures Sound(RecordRun(s, j, run).store)
  {}

  lemma SaveCertificateSound(s: Store, certNo: string, c: Certificate)
    requires Sound(s)
    ensures var s' := SaveCertificate(s, certNo, c).store; Sound(s')
  {
    LoggedElsewhere(s, Audit(c.operator, IssueCertificate, CertificateEntity, certNo));
  }

  /** Replacing or adding one approval that is active only if it already was, or nobody else is. */
  lemma OneActiveSet(s: Store, id: Id, a: Approval)
    requires OneActive(s.approvals)
    requires Active(a.status) ==>
               (id in s.approvals && s.approvals[id].asset == a.asset && Active(s.approvals[id].status))
               || !HasActive(s, a.asset)
    ensures OneActive(s.approvals[id := a])
  {
    var after := s.approvals[id := a];
    forall x | x in s.approvals && x != id ensures !BothActive(after, x, id) {
      if BothActive(after, x, id) {
        assert ActiveFor(s, a.asset, x);
        assert HasActive(s, a.asset);
        assert BothActive(s.approvals, x, id);
        assert false;
      }
    }
    forall x, y | x in after && y in after && BothActive(after, x, y) ensures x == y {
      if x == id || y == id {
        assert BothActive(after, y, x);
      } else {
        assert BothActive(s.approvals, x, y);
      }
    }
  }

  lemma ApprovalSetSound(s: Store, id: Id, a: Approval, row: Audit)
    requires Sound(s) && row.kind == ApprovalEntity && row.id == id && ImpliedApproval(row) == Some(a.status)
    requires ProperlyReviewed(a) && a.asset in s.assets && (id in s.approvals ==> SameRequest(s.approvals[id], a))
    requires Active(a.status) ==> (id in s.approvals && Active(s.approvals[id].status)) || !HasActive(s, a.asset)
    ensures var s' := s.(approvals := s.approvals[id := a], audit := s.audit + [row]); Sound(s')
  {
    AssetLogged(s.assets, s.audit, row);
    DiskLogged(s.disks, s.audit, row);
    ApprovalSet(s.approvals, s.audit, id, a, row);
    OneActiveSet(s, id, a);
  }

  lemma CreateApprovalSound(s: Store, id: Id, a: Approval)
    requires Sound(s) && id !in s.approvals && a.status == ApprovalPending && a.reviewer == ""
    ensures var s' := CreateApproval(s, id, a).store; Sound(s')
  {
    if a.asset in s.assets && !HasActive(s, a.asset) {
      ApprovalSetSound(s, id, a, Audit(a.applicant, SubmitApproval, ApprovalEntity, id));
    }
  }

  lemma ReviewApprovalSound(s: Store, id: Id, to: ApprovalStatus, reviewer: string, note: string)
    requires Sound(s) && reviewer != "" && (id in s.approvals ==> reviewer != s.approvals[id].applicant)
    requires to == ApprovalRejected ==> note != ""
    ensures var s' := ReviewApproval(s, id, to, reviewer, note).store; Sound(s')
  {
    if ReviewApproval(s, id, to, reviewer, note).out == Ok {
      ReviewedSound(s, id, to, reviewer, note);
    }
  }

  lemma ReviewedSound(s: Store, id: Id, to: ApprovalStatus, reviewer: string, note: string)
    requires Sound(s) && id in s.approvals && reviewer != "" && reviewer != s.approvals[id].applicant
    requires (to == ApprovalApproved || (to == ApprovalRejected && note != "")) && CanTransitionApproval(s.approvals[id].status, to)
    ensures var action := if to == ApprovalRejected then RejectApproval else ApproveApproval;
            Sound(s.(approvals := s.approvals[id := s.approvals[id].(status := to, reviewer := reviewer, note := note)],
                     audit := s.audit + [Audit(reviewer, action, ApprovalEntity, id)]))
  {
    var action := if to == ApprovalRejected then RejectApproval else ApproveApproval;
    ApprovalSetSound(s, id, s.approvals[id].(status := to, reviewer := reviewer, note := note),
                     Audit(reviewer, action, ApprovalEntity, id));
  }

  lemma WithdrawApprovalSound(s: Store, id: Id, actor: string)
    requires Sound(s)
    ensures var s' := WithdrawApproval(s, id, actor).store; Sound(s')
  {
    var s' := WithdrawApproval(s, id, actor).store;
    if s' != s {
      ApprovalSetSound(s, id, s'.approvals[id], Audit(actor, WithdrawApprovalAction, ApprovalEntity, id));
    }
  }

  lemma AppendAuditSound(s: Store, row: Audit)
    requires Sound(s) && row.action == ReverifyDisk && row.kind == DiskEntity && row.id in s.disks
    ensures var s' := AppendAudit(s, row).store; Sound(s')
  {
    AssetLogged(s.assets, s.audit, row);
    DiskLogged(s.disks, s.audit, row);
    ApprovalLogged(s.approvals, s.audit, row);
  }

  /** Every single operation keeps the invariant. */
  lemma OpKeepsSound(s: Store, op: Op)
    requires Sound(s) && Issued(s, op)
    ensures Sound(Apply(s, op))
  {
    match op {
      case OpCreateAsset(id, a) =>
        CreateAssetSound(s, id, a);
        assert Apply(s, op) == CreateAsset(s, id, a).store;
      case OpTransition(id, to, actor, action) =>
        TransitionAssetSound(s, id, to, actor, action);
        assert Apply(s, op) == TransitionAsset(s, id, to, actor, action).store;
      case OpCreateDisk(id, d) =>
        CreateDiskSound(s, id, d);
        assert Apply(s, op) == CreateDisk(s, id, d).store;
      case OpDiskStatus(id, status, actor) =>
        UpdateDiskStatusSound(s, id, status, actor);
        assert Apply(s, op) == UpdateDiskStatus(s, id, status, actor).store;
      case OpCreateApproval(id, a) =>
        CreateApprovalSound(s, id, a);
        assert Apply(s, op) == CreateApproval(s, id, a).store;
      case OpReview(id, to, reviewer, note) =>
        ReviewApprovalSound(s, id, to, reviewer, note);
        assert Apply(s, op) == ReviewApproval(s, id, to, reviewer, note).store;
      case OpWithdraw(id, actor) =>
        WithdrawApprovalSound(s, id, actor);
        assert Apply(s, op) == WithdrawApproval(s, id, actor).store;
      case OpDisposal(id, d) =>
        SaveDisposalSound(s, id, d);
        assert Apply(s, op) == SaveDisposal(s, id, d).store;
      case OpCertificate(certNo, c) =>
        SaveCertificateSound(s, certNo, c);
        assert Apply(s, op) == SaveCertificate(s, certNo, c).store;
      case _ =>
        JobOpKeepsSound(s, op);
    }
  }

  lemma JobOpKeepsSound(s: Store, op: Op)
    requires Sound(s) && Issued(s, op)
    requires op.OpCreateJob? || op.OpClaim? || op.OpMarkRunning? || op.OpProgress? || op.OpComplete? || op.OpRecord? || op.OpAudit?
    ensures Sound(Apply(s, op))
  {
    match op {
      case OpCreateJob(id, j, now) =>
        CreateJobSound(s, id, j, now);
        assert Apply(s, op) == CreateJob(s, id, j, now).store;
      case OpClaim(id, worker, now) =>
        if id in s.jobs {
          ClaimSound(s, id, worker, now);
          assert Apply(s, op) == Claim(s, id, worker, now);
        }
      case OpMarkRunning(id, attempt, now) =>
        MarkJobRunningSound(s, id, attempt, now);
        assert Apply(s, op) == MarkJobRunning(s, id, attempt, now).store;
      case OpProgress(id, pass, offset, total, status, now) =>
        SaveProgressSound(s, id, pass, offset, total, status, now);
        assert Apply(s, op) == SaveProgress(s, id, pass, offset, total, status, now).store;
      case OpComplete(id, status, run) =>
        CompleteJobSound(s, id, status, run);
        assert Apply(s, op) == CompleteJob(s, id, status, run).store;
      case OpRecord(id, run) =>
        RecordRunSound(s, id, run);
        assert Apply(s, op) == RecordRun(s, id, run).store;
      case OpAudit(row) =>
        AppendAuditSound(s, row);
        assert Apply(s, op) == AppendAudit(s, row).store;
    }
  }

  // ---- each operation only adds ----

  lemma AssetPut(m: map<Id, Asset>, id: Id, a: Asset)
    requires id in m ==> a == m[id].(status := a.status) && Stage(m[id].status) <= Stage(a.status)
    ensures AssetsAdvance(m, m[id := a])
  {}

  lemma DiskPut(m: map<Id, Disk>, id: Id, d: Disk)
    requires id in m ==> d == m[id].(status := d.status)
    ensures DisksStay(m, m[id := d])
  {}

  lemma JobPut(m: map<Id, Job>, id: Id, j: Job)
    requires id in m ==> SameOrder(m[id], j)
    ensures JobsStay(m, m[id := j])
  {}

  lemma ApprovalPut(m: map<Id, Approval>, id: Id, a: Approval)
    requires id in m ==> SameRequest(m[id], a)
    ensures ApprovalsStay(m, m[id := a])
  {}

  lemma NewKey<V>(m: map<Id, V>, k: Id, v: V)
    requires k !in m
    ensures Extends(m, m[k := v])
  {}

  lemma RunAppended(m: map<Id, seq<Run>>, k: Id, r: seq<Run>)
    requires k in m ==> m[k] <= r
    ensures RunsGrow(m, m[k := r])
  {}

  lemma GrowsReflexive(s: Store)
    ensures Grows(s, s)
  {}

  lemma AssetStepGrows(s: Store, id: Id, a: Asset, tags: map<string, Id>, disposals: map<Id, Disposal>, row: Audit)
    requires id in s.assets ==> a == s.assets[id].(status := a.status) && Stage(s.assets[id].status) <= Stage(a.status)
    requires Extends(s.disposals, disposals)
    ensures Grows(s, s.(assets := s.assets[id := a], tags := tags, disposals := disposals, audit := s.audit + [row]))
  {
    AssetPut(s.assets, id, a);
    GrowsReflexive(s);
  }

  lemma DiskStepGrows(s: Store, id: Id, d: Disk, log: seq<Audit>)
    requires (id in s.disks ==> d == s.disks[id].(status := d.status)) && s.audit <= log
    ensures Grows(s, s.(disks := s.disks[id := d], audit := log))
  {
    DiskPut(s.disks, id, d);
    GrowsReflexive(s);
  }

  lemma JobStepGrows(s: Store, id: Id, j: Job, checkpoints: map<Id, Checkpoint>, runs: map<Id, seq<Run>>, log: seq<Audit>)
    requires (id in s.jobs ==> SameOrder(s.jobs[id], j)) && RunsGrow(s.runs, runs) && s.audit <= log
    ensures Grows(s, s.(jobs := s.jobs[id := j], checkpoints := checkpoints, runs := runs, audit := log))
  {
    JobPut(s.jobs, id, j);
    GrowsReflexive(s);
  }

  lemma ApprovalStepGrows(s: Store, id: Id, a: Approval, row: Audit)
    requires id in s.approvals ==> SameRequest(s.approvals[id], a)
    ensures Grows(s, s.(approvals := s.approvals[id := a], audit := s.audit + [row]))
  {
    ApprovalPut(s.approvals, id, a);
    GrowsReflexive(s);
  }

  lemma AssetOpGrows(s: Store, op: Op)
    requires Issued(s, op) && (op.OpCreateAsset? || op.OpTransition? || op.OpDisposal?)
    ensures Grows(s, Apply(s, op))
  {
    var s' := Apply(s, op);
    if s' == s {
      GrowsReflexive(s);
    } else {
      if op.OpDisposal? {
        NewKey(s.disposals, op.id, op.disposal);
      }
      AssetStepGrows(s, op.id, s'.assets[op.id], s'.tags, s'.disposals, s'.audit[|s.audit|]);
      assert s' == s.(assets := s.assets[op.id := s'.assets[op.id]], tags := s'.tags, disposals := s'.disposals,
                      audit := s.audit + [s'.audit[|s.audit|]]);
    }
  }

  lemma DiskOpGrows(s: Store, op: Op)
    requires Issued(s, op) && (op.OpCreateDisk? || op.OpDiskStatus?)
    ensures Grows(s, Apply(s, op))
  {
    var s' := Apply(s, op);
    if s' == s {
      GrowsReflexive(s);
    } else {
      DiskStepGrows(s, op.id, s'.disks[op.id], s'.audit);
      assert s' == s.(disks := s.disks[op.id := s'.disks[op.id]], audit := s'.audit);
    }
  }

  lemma ApprovalOpGrows(s: Store, op: Op)
    requires Issued(s, op) && (op.OpCreateApproval? || op.OpReview? || op.OpWithdraw?)
    ensures Grows(s, Apply(s, op))
  {
    var s' := Apply(s, op);
    if s' == s {
      GrowsReflexive(s);
    } else {
      ApprovalStepGrows(s, op.id, s'.approvals[op.id], s'.audit[|s.audit|]);
      assert s' == s.(approvals := s.approvals[op.id := s'.approvals[op.id]], audit := s.audit + [s'.audit[|s.audit|]]);
    }
  }

  lemma JobOpGrows(s: Store, op: Op)
    requires Issued(s, op) && (op.OpCreateJob? || op.OpClaim? || op.OpMarkRunning? || op.OpProgress? || op.OpComplete?)
    ensures Grows(s, Apply(s, op))
  {
    var s' := Apply(s, op);
    if s' == s {
      GrowsReflexive(s);
    } else {
      assert RunsGrow(s.runs, s'.runs) by {
        if op.OpComplete? {
          RunAppended(s.runs, op.id, s'.runs[op.id]);
        }
      }
      JobStepGrows(s, op.id, s'.jobs[op.id], s'.checkpoints, s'.runs, s'.audit);
      assert s' == s.(jobs := s.jobs[op.id := s'.jobs[op.id]], checkpoints := s'.checkpoints, runs := s'.runs, audit := s'.audit);
    }
  }

  lemma LogOpGrows(s: Store, op: Op)
    requires op.OpAudit? || op.OpCertificate? || op.OpRecord?
    ensures Grows(s, Apply(s, op))
  {
    var s' := Apply(s, op);
    GrowsReflexive(s);
    if op.OpCertificate? && s' != s {
      NewKey(s.certs, op.certNo, op.cert);
    }
    if op.OpRecord? {
      RunAppended(s.runs, op.id, s'.runs[op.id]);
    }
  }

  /** No operation loses or rewrites what was recorded. */
  lemma OpGrows(s: Store, op: Op)
    requires Issued(s, op)
    ensures Grows(s, Apply(s, op))
  {
    match op {
      case OpCreateAsset(_, _) => AssetOpGrows(s, op);
      case OpTransition(_, _, _, _) => AssetOpGrows(s, op);
      case OpDisposal(_, _) => AssetOpGrows(s, op);
      case OpCreateDisk(_, _) => DiskOpGrows(s, op);
      case OpDiskStatus(_, _, _) => DiskOpGrows(s, op);
      case OpCreateApproval(_, _) => ApprovalOpGrows(s, op);
      case OpReview(_, _, _, _) => ApprovalOpGrows(s, op);
      case OpWithdraw(_, _) => ApprovalOpGrows(s, op);
      case OpAudit(_) => LogOpGrows(s, op);
      case OpCertificate(_, _) => LogOpGrows(s, op);
      case OpRecord(_, _) => LogOpGrows(s, op);
      case _ => JobOpGrows(s, op);
    }
  }

  lemma EmptySound()
    ensures Sound(EMPTY)
  {}

  lemma ExtendsTransitive<K, V>(a: map<K, V>, b: map<K, V>, c: map<K, V>)
    requires Extends(a, b) && Extends(b, c)
    ensures Extends(a, c)
  {}

  lemma RunsGrowTransitive(a: map<Id, seq<Run>>, b: map<Id, seq<Run>>, c: map<Id, seq<Run>>)
    requires RunsGrow(a, b) && RunsGrow(b, c)
    ensures RunsGrow(a, c)
  {}

  lemma RowsTransitive(a: Store, b: Store, c: Store)
    requires AssetsAdvance(a.assets, b.assets) && AssetsAdvance(b.assets, c.assets)
    requires DisksStay(a.disks, b.disks) && DisksStay(b.disks, c.disks)
    ensures AssetsAdvance(a.assets, c.assets) && DisksStay(a.disks, c.disks)
  {}

  lemma RequestsTransitive(a: Store, b: Store, c: Store)
    requires JobsStay(a.jobs, b.jobs) && JobsStay(b.jobs, c.jobs)
    requires ApprovalsStay(a.approvals, b.approvals) && ApprovalsStay(b.approvals, c.approvals)
    ensures JobsStay(a.jobs, c.jobs) && ApprovalsStay(a.approvals, c.approvals)
  {}

  lemma GrowsTransitive(a: Store, b: Store, c: Store)
    requires Grows(a, b) && Grows(b, c)
    ensures Grows(a, c)
  {
    ExtendsTransitive(a.certs, b.certs, c.certs);
    ExtendsTransitive(a.disposals, b.disposals, c.disposals);
    RunsGrowTransitive(a.runs, b.runs, c.runs);
    RowsTransitive(a, b, c);
    RequestsTransitive(a, b, c);
  }

  // ---- any sequence of operations ----

  function ApplyAll(s: Store, ops: seq<Op>): Store
    decreases |ops|
  {
    if |ops| == 0 then s else Apply(ApplyAll(s, ops[..|ops| - 1]), ops[|ops| - 1])
  }

  ghost predicate AllIssued(s: Store, ops: seq<Op>)
    decreases |ops|
  {
    |ops| > 0 ==>
      AllIssued(s, ops[..|ops| - 1]) && Issued(ApplyAll(s, ops[..|ops| - 1]), ops[|ops| - 1])
  }

  /** Whatever the callers do, in whatever order their operations reach the store. */
  lemma {:induction false} EveryHistoryIsSound(ops: seq<Op>)
    requires AllIssued(EMPTY, ops)
    ensures Sound(ApplyAll(EMPTY, ops))
    decreases |ops|
  {
    EmptySound();
    if |ops| > 0 {
      EveryHistoryIsSound(ops[..|ops| - 1]);
      OpKeepsSound(ApplyAll(EMPTY, ops[..|ops| - 1]), ops[|ops| - 1]);
    }
  }

  /** An earlier store is a prefix of every later one: audit, certificates, disposals, runs, terms of approvals. */
  lemma {:induction false} EveryHistoryGrows(s: Store, ops: seq<Op>, i: nat)
    requires AllIssued(s, ops) && i <= |ops|
    ensures Grows(ApplyAll(s, ops[..i]), ApplyAll(s, ops))
    decreases |ops|
  {
    if i == |ops| {
      assert ops[..i] == ops;
      GrowsReflexive(ApplyAll(s, ops));
    } else {
      var init := ops[..|ops| - 1];
      EveryHistoryGrows(s, init, i);
      assert init[..i] == ops[..i];
      OpGrows(ApplyAll(s, init), ops[|ops| - 1]);
      GrowsTransitive(ApplyAll(s, ops[..i]), ApplyAll(s, init), ApplyAll(s, ops));
    }
  }
}
