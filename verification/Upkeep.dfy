/** What every step that touches the store keeps: service calls, moves of job runs, claims and re-verifications. */
module Upkeep {
  import opened Domain
  import opened StoreModel
  import opened History
  import opened ServiceRules
  import opened RunnerModel
  import opened Gate
  import opened Versions
  import opened Finality

  /** The invariant of the store. */
  ghost predicate Kept(s: Store) {
    Sound(s) && Gatekept(s) && Ordered(s) && Final(s)
  }

  ghost predicate Gates(s: Store) {
    Sound(s) && Gatekept(s) && Ordered(s)
  }

  lemma EmptyKept()
    ensures Kept(EMPTY) && Bound(EMPTY)
  {
    EmptySound();
    EmptyFinal();
  }

  /** The step keeps the gate, and its terms if they hold. */
  ghost predicate Carries(s: Store, s': Store) {
    Gates(s') && (Bound(s) ==> Bound(s'))
  }

  /** The step keeps the invariant of the store, and the terms if they hold. */
  ghost predicate Advances(s: Store, s': Store) {
    Kept(s') && (Bound(s) ==> Bound(s'))
  }

  /** A step that leaves the gate alone and logs no request. */
  ghost predicate Passive(s: Store, s': Store) {
    Quiet(s, s') && NoneFiled(s.audit, s'.audit)
  }

  lemma PassiveKeeps(s: Store, s': Store)
    requires Gates(s) && Sound(s') && Passive(s, s')
    ensures Carries(s, s')
  {
    QuietKeepsGate(s, s');
    NothingFiledKeeps(s, s');
    if Bound(s) {
      QuietKeepsBound(s, s');
    }
  }

  lemma OnlyJobPassive(s: Store, s': Store, j: Id)
    requires OnlyJob(s, s', j)
    ensures Passive(s, s')
  {
    forall k | k in s.jobs ensures SameOrder(s.jobs[k], s'.jobs[k]) {}
  }

  lemma LoggedPassive(s: Store, certs: map<string, Certificate>, row: Audit)
    requires row.action != SubmitApproval
    ensures Passive(s, s.(certs := certs, audit := s.audit + [row]))
  {}

  lemma DiskPassive(s: Store, disk: Id, status: DiskStatus, row: Audit)
    requires disk in s.disks && status != DiskScrapped && row.action != SubmitApproval
    ensures Passive(s, s.(disks := s.disks[disk := s.disks[disk].(status := status)], audit := s.audit + [row]))
  {}

  lemma JobPassive(s: Store, j: Id, job: Job, row: Audit)
    requires j in s.jobs && SameOrder(s.jobs[j], job) && row.action != SubmitApproval
    ensures Passive(s, s.(jobs := s.jobs[j := job], audit := s.audit + [row]))
  {}

  lemma OnlyJobUpkeep(s: Store, s': Store, j: Id)
    requires Gates(s) && OnlyJob(s, s', j)
    ensures Carries(s, s')
  {
    OnlyJobSound(s, s', j);
    OnlyJobPassive(s, s', j);
    PassiveKeeps(s, s');
  }

  lemma OnlyRow(s: Store, s': Store, j: Id)
    requires OnlyJob(s, s', j)
    ensures s' == s.(jobs := s.jobs[j := s'.jobs[j]], checkpoints := s'.checkpoints, runs := s'.runs)
  {
    assert s'.jobs == s.jobs[j := s'.jobs[j]];
  }

  lemma OnlyJobSound(s: Store, s': Store, j: Id)
    requires Sound(s) && OnlyJob(s, s', j)
    ensures Sound(s')
  {
    OnlyRow(s, s', j);
    JobRowSound(s, j, s'.jobs[j], s'.checkpoints, s'.runs);
  }

  lemma DiskUpkeep(s: Store, disk: Id, status: DiskStatus, actor: string)
    requires Gates(s) && status != DiskScrapped
    ensures var s' := UpdateDiskStatus(s, disk, status, actor).store; Carries(s, s')
  {
    var s' := UpdateDiskStatus(s, disk, status, actor).store;
    UpdateDiskStatusSound(s, disk, status, actor);
    if s' != s {
      DiskPassive(s, disk, status, Audit(actor, SetDiskStatus(status), DiskEntity, disk));
      PassiveKeeps(s, s');
    }
  }

  lemma CertificateUpkeep(s: Store, certNo: string, c: Certificate)
    requires Gates(s)
    ensures var s' := SaveCertificate(s, certNo, c).store; Carries(s, s')
  {
    var s' := SaveCertificate(s, certNo, c).store;
    SaveCertificateSound(s, certNo, c);
    if certNo !in s.certs {
      LoggedPassive(s, s.certs[certNo := c], Audit(c.operator, IssueCertificate, CertificateEntity, certNo));
      PassiveKeeps(s, s');
    }
  }

  lemma FinishUpkeep(s: Store, asset: Id, actor: string)
    requires Gates(s)
    ensures var s' := TransitionAsset(s, asset, AssetErasureDone, actor, ErasureVerified).store; Carries(s, s')
  {
    var s' := TransitionAsset(s, asset, AssetErasureDone, actor, ErasureVerified).store;
    MoveAssetKeeps(s, asset, AssetErasureDone, actor, ErasureVerified);
    TransitionFilesNothing(s, asset, AssetErasureDone, actor, ErasureVerified);
    NothingFiledKeeps(s, s');
    if Bound(s) {
      MoveAssetKeepsBound(s, asset, AssetErasureDone, actor, ErasureVerified);
    }
  }

  lemma ClaimUpkeep(s: Store, j: Id, worker: string, now: nat)
    requires Gates(s) && j in s.jobs
    ensures var s' := Claim(s, j, worker, now); Carries(s, s')
  {
    var s' := Claim(s, j, worker, now);
    ClaimSound(s, j, worker, now);
    JobPassive(s, j, s'.jobs[j], Audit(worker, AcquireJobAction, JobEntity, j));
    PassiveKeeps(s, s');
  }

  lemma AuditUpkeep(s: Store, row: Audit)
    requires Gates(s) && row.action == ReverifyDisk && row.kind == DiskEntity && row.id in s.disks
    ensures var s' := AppendAudit(s, row).store; Carries(s, s')
  {
    var s' := AppendAudit(s, row).store;
    AppendAuditSound(s, row);
    LoggedPassive(s, s.certs, row);
    PassiveKeeps(s, s');
  }

  predicate RowMove(move: Move) {
    move.FailBefore? || move.MarkRunning? || move.Progress? || move.Interrupted? || move.FailRun?
    || move.MismatchFound? || move.SaveVerified? || move.Record?
  }

  lemma RowMoveOnly(s: Store, r: Runner, move: Move, s': Store, pc': Pc)
    requires Knows(s, r) && Step(s, r, move, s', pc') && RowMove(move)
    ensures OnlyJob(s, s', r.job)
  {
    match move
    case FailBefore(run) => CompleteOnly(s, r.job, JobFailed, run);
    case MarkRunning(now) => MarkOnly(s, r.job, now);
    case Progress(pass, offset, total, verifying, now) =>
      ProgressOnly(s, r.job, pass, offset, total, if verifying then JobVerifying else JobRunning, now);
    case Interrupted(run) => RecordOnly(s, r.job, run);
    case FailRun(run) => CompleteOnly(s, r.job, JobFailed, run);
    case MismatchFound(run) => CompleteOnly(s, r.job, JobFailed, run);
    case SaveVerified(size, bytes, now) =>
      BuiltInStandards(r.jobRow.standard);
      ProgressOnly(s, r.job, |STANDARDS[r.jobRow.standard].passes| - 1, size, size, JobVerified, now);
    case Record(run) => CompleteOnly(s, r.job, JobVerified, run);
  }

  lemma MarkingKeepsGates(s: Store, r: Runner, move: Move, s': Store, pc': Pc)
    requires Gates(s) && Knows(s, r) && Step(s, r, move, s', pc') && !RowMove(move)
    ensures Carries(s, s')
  {
    if move == MarkDisk || move == FailDisk || move == DiskVerifiedMove {
      DiskMoveUpkeep(s, r, move, s', pc');
    } else if move == AssetDone {
      FinishUpkeep(s, r.diskRow.asset, r.name);
    } else if move.Certify? {
      CertifyUpkeep(s, r, move.day);
    }
  }

  lemma DiskMoveUpkeep(s: Store, r: Runner, move: Move, s': Store, pc': Pc)
    requires Gates(s) && Step(s, r, move, s', pc') && (move == MarkDisk || move == FailDisk || move == DiskVerifiedMove)
    ensures Carries(s, s')
  {
    var status := if move == MarkDisk then DiskErasing else if move == FailDisk then DiskFailed else DiskVerified;
    DiskUpkeep(s, r.jobRow.disk, status, r.name);
    assert s' == UpdateDiskStatus(s, r.jobRow.disk, status, r.name).store;
  }

  lemma CertifyUpkeep(s: Store, r: Runner, day: string)
    requires Gates(s) && r.pc.Recorded? && r.jobRow.standard in STANDARDS && r.diskRow.asset in s.assets
    ensures Carries(s, SaveCertificate(s, CertificateNumber(s, r, day), CertificateOf(r, STANDARDS[r.jobRow.standard], r.pc.bytes)).store)
  {
    CertificateUpkeep(s, CertificateNumber(s, r, day), CertificateOf(r, STANDARDS[r.jobRow.standard], r.pc.bytes));
  }

  lemma MoveKeepsGates(s: Store, r: Runner, move: Move, s': Store, pc': Pc)
    requires Gates(s) && Knows(s, r) && Step(s, r, move, s', pc')
    ensures Carries(s, s')
  {
    if RowMove(move) {
      RowMoveOnly(s, r, move, s', pc');
      OnlyJobUpkeep(s, s', r.job);
    } else {
      MarkingKeepsGates(s, r, move, s', pc');
    }
  }

  /** Every move of a job run keeps the invariant of the store, and the terms if they hold. */
  lemma MoveKeeps(s: Store, r: Runner, move: Move, s': Store, pc': Pc)
    requires Kept(s) && Stands(s, r) && Step(s, r, move, s', pc')
    ensures Advances(s, s')
  {
    MoveKeepsGates(s, r, move, s', pc');
    MoveKeepsFinal(s, r, move, s', pc');
  }

  lemma CallKeepsAll(s: Store, call: Call)
    requires Kept(s) && Permitted(s, call)
    ensures Kept(Perform(s, call)) && (Bound(s) && Whole(call) ==> Bound(Perform(s, call)))
  {
    CallKeeps(s, call);
    CallKeepsOrdered(s, call);
    CallKeepsFinal(s, call);
  }

  // ---- what never changes once it is there ----

  ghost predicate NotNewlyDone(s: Store, s': Store) {
    forall a :: a in s'.assets && s'.assets[a].status == AssetErasureDone ==>
      a in s.assets && s.assets[a].status == AssetErasureDone
  }

  lemma AssetMovedNotDone(s: Store, asset: Id, to: AssetStatus, actor: string, action: Action)
    requires to != AssetErasureDone
    ensures NotNewlyDone(s, TransitionAsset(s, asset, to, actor, action).store)
  {
    var s' := TransitionAsset(s, asset, to, actor, action).store;
    if s' != s {
      assert s'.assets == s.assets[asset := s.assets[asset].(status := to)];
    }
  }

  lemma PullNotDone(s: Store, asset: Id, operator: string, inputs: seq<DiskInput>, ids: seq<Id>, found: Option<Id>)
    requires |ids| == |inputs| && FreshIds(s, ids)
    ensures var s' := Pull(s, asset, operator, inputs, ids, found).store;
            NotNewlyDone(s, s') && s'.disposals == s.disposals
  {
    if asset in s.assets {
      AddedDisks(s, asset, operator, inputs, ids, Accepted(inputs));
      var mid := AddDisks(s, asset, operator, inputs, ids, Accepted(inputs));
      AssetMovedNotDone(mid, asset, AssetDiskPulled, operator, PullDisksAction);
      AssetsForward(mid, asset, AssetDiskPulled, operator, PullDisksAction);
    }
  }

  lemma OrderNotDone(s: Store, disk: Id, standard: string, operator: string, id: Id, now: nat, found: Option<Id>)
    ensures var s' := Order(s, disk, standard, operator, id, now, found).store;
            NotNewlyDone(s, s') && s'.disposals == s.disposals
  {
    var s' := Order(s, disk, standard, operator, id, now, found).store;
    if s' != s {
      var job := Job(disk, STANDARDS[standard].code, JobPending, |JobsOf(s, disk)|, 0, 0, 0, operator, "", 0, now);
      var created := CreateJob(s, id, job, now).store;
      AssetMovedNotDone(created, s.disks[disk].asset, AssetErasing, operator, StartErasing);
      AssetsForward(created, s.disks[disk].asset, AssetErasing, operator, StartErasing);
    }
  }

  lemma ScrapNotDone(s: Store, disk: Id, operator: string)
    ensures var s' := Scrap(s, disk, operator).store; NotNewlyDone(s, s') && s'.disposals == s.disposals
  {
    var s' := Scrap(s, disk, operator).store;
    if s' != s {
      var ended := Ended(s, disk, operator);
      AssetMovedNotDone(ended, s.disks[disk].asset, AssetScrapped, operator, ScrapAsset);
      AssetsForward(ended, s.disks[disk].asset, AssetScrapped, operator, ScrapAsset);
    }
  }

  lemma ConfirmNotDone(s: Store, asset: Id, route: string, receiver: string, operator: string, found: Option<Id>)
    ensures var s' := Confirm(s, asset, route, receiver, operator, found).store;
            NotNewlyDone(s, s') && Extends(s.disposals, s'.disposals)
  {
    var s' := Confirm(s, asset, route, receiver, operator, found).store;
    if s' != s {
      NewKey(s.disposals, asset, s'.disposals[asset]);
      assert s'.assets == s.assets[asset := s.assets[asset].(status := AssetDisposed)];
    }
  }

  lemma RegisterNotDone(s: Store, tag: string, owner: string, operator: string, id: Id)
    ensures var s' := Register(s, tag, owner, operator, id).store; NotNewlyDone(s, s') && s'.disposals == s.disposals
  {
    var s' := Register(s, tag, owner, operator, id).store;
    if s' != s {
      assert s'.assets == s.assets[id := Asset(tag, owner, AssetPending, operator)];
    }
  }

  /** No service call moves an asset to erasure verified, and none changes a disposal row. */
  lemma CallNeverEntersDone(s: Store, call: Call)
    requires Permitted(s, call)
    ensures NotNewlyDone(s, Perform(s, call)) && Extends(s.disposals, Perform(s, call).disposals)
  {
    match call
    case CallRegister(tag, owner, operator, id) => RegisterNotDone(s, tag, owner, operator, id);
    case CallPull(asset, operator, inputs, ids, found) => PullNotDone(s, asset, operator, inputs, ids, found);
    case CallOrder(disk, standard, operator, id, now, found) => OrderNotDone(s, disk, standard, operator, id, now, found);
    case CallScrap(disk, operator) => ScrapNotDone(s, disk, operator);
    case CallConfirm(asset, route, receiver, operator, found) => ConfirmNotDone(s, asset, route, receiver, operator, found);
    case _ => RequestNotDone(s, call);
  }

  lemma RequestNotDone(s: Store, call: Call)
    requires call.CallSubmit? || call.CallReview? || call.CallWithdraw?
    ensures Perform(s, call).assets == s.assets && Perform(s, call).disposals == s.disposals
  {}

  /** Only the last move of a run does, after its listing of the disks, and only from erasing. */
  lemma MoveEntersDone(s: Store, r: Runner, move: Move, s': Store, pc': Pc)
    requires Knows(s, r) && Step(s, r, move, s', pc') && s'.assets != s.assets
    ensures move == AssetDone && r.pc == Listed && r.diskRow.asset in s.assets
    ensures s'.assets == s.assets[r.diskRow.asset := s.assets[r.diskRow.asset].(status := AssetErasureDone)]
    ensures s.assets[r.diskRow.asset].status == AssetErasing
  {}
}
