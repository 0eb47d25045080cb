/** What the system guarantees, for every sequence of steps from the empty store. */
module Guarantees {
  import opened Domain
  import opened StoreModel
  import opened History
  import opened ServiceRules
  import opened RunnerModel
  import opened Gate
  import opened Versions
  import opened Finality
  import opened Upkeep
  import opened SystemModel
  import opened DiskHistory
  import opened Scrapping
  import Continuations
  import CertNumber

  // ---- leases ----

  /**
   * Mutual exclusion and the slot limit: two live runs never share a job, a live run belongs to a live instance
   * that holds the lock, and an instance never has more runs and re-verifications in flight than workers.
   */
  lemma OneRunPerJob(t: Trace, n: nat)
    requires t.Valid() && n < |t.states|
    ensures var sys := t.states[n];
            && (forall g, h :: g in sys.runs && h in sys.runs && g != h ==> sys.runs[g].job != sys.runs[h].job)
            && (forall g :: g in sys.runs ==>
                  && sys.runs[g].inst in sys.live && sys.runs[g].job in sys.store.jobs
                  && sys.store.jobs[sys.runs[g].job].lockedBy == sys.runs[g].inst)
            && (forall i :: i in sys.live ==> |RunsOn(sys.runs, i)| + |ChecksOn(sys.checks, i)| <= sys.live[i].workers)
  {
    EveryStateKept(t, n);
    var sys := t.states[n];
    forall g, h | g in sys.runs && h in sys.runs && g != h ensures sys.runs[g].job != sys.runs[h].job {
      assert !SameJob(sys.runs, g, h);
    }
    forall g | g in sys.runs ensures sys.runs[g].job in sys.store.jobs && sys.store.jobs[sys.runs[g].job].lockedBy == sys.runs[g].inst {
      assert Leased(sys.store, sys.now, sys.staleAfter, sys.runs[g]);
    }
    forall i | i in sys.live ensures |RunsOn(sys.runs, i)| + |ChecksOn(sys.checks, i)| <= sys.live[i].workers {
      assert SlotsCounted(sys.live[i], InUse(sys.runs, sys.checks, i));
    }
  }

  /**
   * A job that is claimed has no live run, and is neither finished nor already the claimant's own. The claim locks it,
   * starts it if it was pending, and otherwise leaves it where it was, verifying or running, with its checkpoint.
   */
  lemma ClaimIsExclusive(t: Trace, n: nat)
    requires t.Valid() && n < |t.events| && t.events[n].ClaimJob?
    ensures var sys := t.states[n]; var e := t.events[n];
            && e.job in sys.store.jobs && (forall g :: g in sys.runs ==> sys.runs[g].job != e.job)
            && (sys.store.jobs[e.job].status == JobPending
                || (InFlight(sys.store.jobs[e.job].status) && sys.store.jobs[e.job].lockedBy != e.inst))
            && var job := sys.store.jobs[e.job]; var status := if job.status == JobPending then JobRunning else job.status;
               t.states[n + 1].store
               == sys.store.(jobs := sys.store.jobs[e.job := job.(status := status, lockedBy := e.inst, lockedAt := sys.now)],
                             audit := sys.store.audit + [Audit(e.inst, AcquireJobAction, JobEntity, e.job)])
  {
    EveryStateKept(t, n);
    assert t.StepAt(n);
    ClaimAvoidsRuns(t.states[n], t.events[n].inst, t.events[n].job);
  }

  // ---- the finalize order ----

  /** A disk that counts as verified has a verified job, whose checkpoint stands at the end of its last pass. */
  lemma VerifiedDiskIsEarned(t: Trace, n: nat, disk: Id) returns (j: Id)
    requires t.Valid() && n < |t.states| && disk in t.states[n].store.disks
    requires t.states[n].store.disks[disk].status == DiskVerified
    ensures var s := t.states[n].store;
            j in s.jobs && s.jobs[j].disk == disk && s.jobs[j].status == JobVerified && AtEnd(s.jobs[j], j, s.checkpoints)
  {
    EveryStateKept(t, n);
    var s := t.states[n].store;
    assert HasVerifiedJob(s.jobs, disk);
    j :| j in s.jobs && VerifiedOn(s.jobs[j], disk);
  }

  /**
   * A certificate is the last link of a chain that nothing can break: a verified job with its checkpoint at the
   * end, a clean run over as many bytes as the certificate says, and a disk marked verified before it was issued.
   */
  lemma CertificateIsEarned(t: Trace, n: nat, certNo: string) returns (i: nat)
    requires t.Valid() && n < |t.states| && certNo in t.states[n].store.certs
    ensures var s := t.states[n].store; var c := s.certs[certNo];
            && c.job in s.jobs && s.jobs[c.job].disk == c.disk && s.jobs[c.job].standard == c.standard
            && s.jobs[c.job].status == JobVerified && AtEnd(s.jobs[c.job], c.job, s.checkpoints)
            && c.attempts == s.jobs[c.job].attempt + 1
            && c.operator == (if s.jobs[c.job].createdBy == "" then "system" else s.jobs[c.job].createdBy)
            && c.standard in STANDARDS && i < |RunsOf(s, c.job)|
            && RunsOf(s, c.job)[i].verdict == RunVerified && RunsOf(s, c.job)[i].mismatches == 0
            && RunsOf(s, c.job)[i].verifyBytes == c.verifyBytes && RunsOf(s, c.job)[i].mode == c.mode == STANDARDS[c.standard].mode
            && IssuedAfterMark(s.audit, c.disk, certNo)
  {
    EveryStateKept(t, n);
    var s := t.states[n].store;
    var c := s.certs[certNo];
    assert CertificateRests(s, certNo, c);
    CertifiedMeansVerified(s, certNo);
    i :| 0 <= i < |RunsOf(s, c.job)| && CleanRun(RunsOf(s, c.job)[i], STANDARDS[c.standard], c.verifyBytes);
  }

  /** Two certificates of one disk are for different jobs and carry different attempt numbers. */
  lemma CertificatesOfOneDiskDiffer(t: Trace, n: nat, x: string, y: string)
    requires t.Valid() && n < |t.states| && x in t.states[n].store.certs && y in t.states[n].store.certs && x != y
    requires t.states[n].store.certs[x].disk == t.states[n].store.certs[y].disk
    ensures t.states[n].store.certs[x].job != t.states[n].store.certs[y].job
    ensures t.states[n].store.certs[x].attempts != t.states[n].store.certs[y].attempts
  {
    EveryStateKept(t, n);
    SameDiskCertificates(t.states[n].store, x, y);
  }

  lemma CertifiedJob(s: Store, x: string)
    requires Certificates(s) && x in s.certs
    ensures s.certs[x].job in s.jobs && s.certs[x].disk == s.jobs[s.certs[x].job].disk
    ensures s.certs[x].attempts == s.jobs[s.certs[x].job].attempt + 1
  {
    assert CertificateRests(s, x, s.certs[x]);
  }

  lemma SameDiskCertificates(s: Store, x: string, y: string)
    requires Attempts(s.jobs) && Certificates(s) && x in s.certs && y in s.certs && x != y
    requires s.certs[x].disk == s.certs[y].disk
    ensures s.certs[x].job != s.certs[y].job && s.certs[x].attempts != s.certs[y].attempts
  {
    CertifiedJob(s, x);
    CertifiedJob(s, y);
    assert s.certs[x].job != s.certs[y].job;
    assert !SameAttempt(s.jobs, s.certs[x].job, s.certs[y].job);
  }

  /** A run about to save its certificate never meets an earlier certificate of its own disk under that number. */
  lemma NumberIsFreeForItsDisk(t: Trace, n: nat, g: nat, day: string)
    requires t.Valid() && n < |t.states| && CertNumber.IsDay(day)
    requires g in t.states[n].runs && t.states[n].runs[g].pc.Recorded?
    requires t.states[n].runs[g].diskRow.asset in t.states[n].store.assets
    ensures var s := t.states[n].store; var r := t.states[n].runs[g];
            CertificateNumber(s, r, day) in s.certs ==> s.certs[CertificateNumber(s, r, day)].disk != r.jobRow.disk
  {
    EveryStateKept(t, n);
    NumberIsFree(t.states[n].store, t.states[n].runs[g], day);
  }

  lemma NumberIsFree(s: Store, r: Runner, day: string)
    requires Final(s) && Stands(s, r) && r.pc.Recorded? && r.diskRow.asset in s.assets && CertNumber.IsDay(day)
    ensures CertificateNumber(s, r, day) in s.certs ==> s.certs[CertificateNumber(s, r, day)].disk != r.jobRow.disk
  {
    var certNo := CertificateNumber(s, r, day);
    if certNo in s.certs && s.certs[certNo].disk == r.jobRow.disk {
      var c := s.certs[certNo];
      assert CertificateRests(s, certNo, c);
      var other :| CertNumber.IsDay(other)
                   && certNo == CertNumber.Number(other, s.assets[c.asset].tag, s.disks[c.disk].serial, s.jobs[c.job].attempt);
      CertNumber.NumbersCollide(other, s.assets[c.asset].tag, s.disks[c.disk].serial, s.jobs[c.job].attempt,
                                day, s.assets[r.diskRow.asset].tag, r.diskRow.serial, r.jobRow.attempt);
      assert SameAttempt(s.jobs, c.job, r.job);
      assert false;
    }
  }

  // ---- the asset lifecycle ----

  predicate DoneStatus(status: DiskStatus) {
    status == DiskVerified || status == DiskScrapped
  }

  /** Nothing was written to the disk, or last a status that counts as done. */
  predicate StillDone(written: Option<DiskStatus>) {
    written.Some? ==> DoneStatus(written.value)
  }

  predicate Lists(event: Event, run: nat) {
    event == MoveRun(run, ListDisks, Listed)
  }

  /**
   * An asset enters erasure verified only from erasing, in the last move of a run, which listed the disks of the
   * asset before, at step `k`. Every disk was verified or scrapped when it was listed; if no pull stopped half-way,
   * every disk was verified, by a job of its own. At the move itself all disks are done if and only if the last
   * status written to each of them since the listing, if any, is again a done one.
   */
  lemma EntersErasureVerified(t: Trace, n: nat, asset: Id) returns (k: nat)
    requires t.Valid() && n < |t.events| && asset in t.states[n + 1].store.assets
    requires t.states[n + 1].store.assets[asset].status == AssetErasureDone
    requires asset in t.states[n].store.assets ==> t.states[n].store.assets[asset].status != AssetErasureDone
    ensures t.events[n].MoveRun? && t.events[n].move == AssetDone && k < n && Lists(t.events[k], t.events[n].run)
    ensures asset in t.states[n].store.assets && t.states[n].store.assets[asset].status == AssetErasing
    ensures AllDisksDone(t.states[k].store, asset)
    ensures t.WholeUpTo(n) ==>
              forall d :: d in t.states[k].store.disks && t.states[k].store.disks[d].asset == asset ==>
                t.states[k].store.disks[d].status == DiskVerified && HasVerifiedJob(t.states[k].store.jobs, d)
    ensures AllDisksDone(t.states[n].store, asset) <==>
              forall d :: d in t.states[n].store.disks && t.states[n].store.disks[d].asset == asset ==>
                StillDone(LastWritten(t, k, n, d))
  {
    var e := t.events[n];
    NewlyDone(t, n, asset);
    k := ListedAt(t, n, e.run);
    ListedDone(t, k, e.run);
    DoneAtMove(t, k, n, asset);
    if t.WholeUpTo(n) {
      VerifiedWhenListed(t, k, n, asset);
    }
  }

  lemma VerifiedWhenListed(t: Trace, k: nat, n: nat, asset: Id)
    requires t.Valid() && k < n < |t.events| && t.WholeUpTo(n) && AllDisksDone(t.states[k].store, asset)
    requires asset in t.states[n].store.assets && t.states[n].store.assets[asset].status == AssetErasing
    ensures forall d :: d in t.states[k].store.disks && t.states[k].store.disks[d].asset == asset ==>
              t.states[k].store.disks[d].status == DiskVerified && HasVerifiedJob(t.states[k].store.jobs, d)
  {
    EveryStateKept(t, k);
    LaterStates(t, k, n);
    NoneScrapped(t.states[k].store, asset);
  }

  lemma NewlyDone(t: Trace, n: nat, asset: Id)
    requires t.Valid() && n < |t.events| && asset in t.states[n + 1].store.assets
    requires t.states[n + 1].store.assets[asset].status == AssetErasureDone
    requires asset in t.states[n].store.assets ==> t.states[n].store.assets[asset].status != AssetErasureDone
    ensures var e := t.events[n]; var s := t.states[n].store;
            && e.MoveRun? && e.move == AssetDone && e.run in t.states[n].runs
            && t.states[n].runs[e.run].pc == Listed && t.states[n].runs[e.run].diskRow.asset == asset
            && asset in s.assets && s.assets[asset].status == AssetErasing
  {
    EveryStateKept(t, n);
    var e := t.events[n];
    assert t.StepAt(n);
    StepEntersDone(t.states[n], e, t.states[n + 1]);
    MoveEntersFrom(t.states[n].store, t.states[n].runs[e.run], e.move, t.states[n + 1].store, e.pc, asset);
  }

  lemma MoveEntersFrom(s: Store, r: Runner, move: Move, s': Store, pc: Pc, asset: Id)
    requires Knows(s, r) && Step(s, r, move, s', pc)
    requires asset in s'.assets && s'.assets[asset].status == AssetErasureDone
    requires asset in s.assets ==> s.assets[asset].status != AssetErasureDone
    ensures move == AssetDone && r.pc == Listed && r.diskRow.asset == asset
    ensures asset in s.assets && s.assets[asset].status == AssetErasing
  {
    MoveEntersDone(s, r, move, s', pc);
  }

  /** A run that has listed its disks did so at an earlier step, and has not changed since. */
  lemma {:induction false} ListedAt(t: Trace, n: nat, run: nat) returns (k: nat)
    requires t.Valid() && n < |t.states| && run in t.states[n].runs && t.states[n].runs[run].pc == Listed
    ensures k < n && Lists(t.events[k], run) && run in t.states[k].runs
    ensures t.states[k].runs[run].(pc := Listed) == t.states[n].runs[run]
    decreases n
  {
    if n > 0 {
      assert t.StepAt(n - 1);
      ListedBefore(t.states[n - 1], t.events[n - 1], t.states[n], run);
      if Lists(t.events[n - 1], run) {
        k := n - 1;
      } else {
        k := ListedAt(t, n - 1, run);
      }
    }
  }

  lemma ListedBefore(sys: System, event: Event, sys': System, run: nat)
    requires Next(sys, event, sys') && run in sys'.runs && sys'.runs[run].pc == Listed
    ensures run in sys.runs && sys.runs[run].(pc := Listed) == sys'.runs[run]
    ensures Lists(event, run) || sys.runs[run] == sys'.runs[run]
  {
    match event
    case MoveRun(g, move, pc) =>
    case _ =>
  }

  lemma ListedDone(t: Trace, k: nat, run: nat)
    requires t.Valid() && k < |t.events| && Lists(t.events[k], run)
    ensures run in t.states[k].runs && AllDisksDone(t.states[k].store, t.states[k].runs[run].diskRow.asset)
  {
    assert t.StepAt(k);
  }

  lemma DoneAtMove(t: Trace, k: nat, n: nat, asset: Id)
    requires t.Valid() && k <= n < |t.states| && AllDisksDone(t.states[k].store, asset)
    ensures AllDisksDone(t.states[n].store, asset) <==>
              forall d :: d in t.states[n].store.disks && t.states[n].store.disks[d].asset == asset ==>
                StillDone(LastWritten(t, k, n, d))
  {
    forall d | d in t.states[n].store.disks && t.states[n].store.disks[d].asset == asset
      ensures DoneStatus(t.states[n].store.disks[d].status) <==> StillDone(LastWritten(t, k, n, d))
    {
      StatusIsLastWritten(t, k, n, d);
    }
  }

  lemma NoneScrapped(s: Store, asset: Id)
    requires VerifiedDisks(s.disks, s.jobs) && ScrapForces(s.disks, s.assets) && AllDisksDone(s, asset)
    requires asset in s.assets ==> Stage(s.assets[asset].status) < 4
    requires DisksKnown(s.disks, s.assets)
    ensures forall d :: d in s.disks && s.disks[d].asset == asset ==>
              s.disks[d].status == DiskVerified && HasVerifiedJob(s.jobs, d)
  {}

  lemma StepEntersDone(sys: System, event: Event, sys': System)
    requires Inv(sys) && Next(sys, event, sys') && !NotNewlyDone(sys.store, sys'.store)
    ensures event.MoveRun? && event.run in sys.runs && Knows(sys.store, sys.runs[event.run])
    ensures Step(sys.store, sys.runs[event.run], event.move, sys'.store, event.pc)
  {
    if event.MoveRun? {
      assert Stands(sys.store, sys.runs[event.run]);
    } else if event.ServiceCall? {
      CallNeverEntersDone(sys.store, event.call);
    } else {
      CheckLeavesAssets(sys, event, sys');
    }
  }

  lemma CheckLeavesAssets(sys: System, event: Event, sys': System)
    requires Next(sys, event, sys') && !event.MoveRun? && !event.ServiceCall?
    ensures sys'.store.assets == sys.store.assets
  {}

  lemma GoList(t: Trace, g: nat) returns (t': Trace)
    requires t.Legal() && g in t.Last().runs && t.Last().runs[g].pc == Certified
    requires AllDisksDone(t.Last().store, t.Last().runs[g].diskRow.asset)
    ensures Extended(t, MoveRun(g, ListDisks, Listed), t') && t'.Last() == Moved(t.Last(), g, t.Last().store, Listed)
  {
    var sys := t.Last();
    assert Step(sys.store, sys.runs[g], ListDisks, sys.store, Listed);
    Go(t, MoveRun(g, ListDisks, Listed), Moved(sys, g, sys.store, Listed));
    t' := t.Then(MoveRun(g, ListDisks, Listed), Moved(sys, g, sys.store, Listed));
  }

  lemma GoFail(t: Trace, v: nat) returns (t': Trace)
    requires t.Legal() && v in t.Last().checks && t.Last().checks[v].pc == Reading
    requires t.Last().checks[v].disk in t.Last().store.disks
    ensures Extended(t, CheckFails(v), t') && t'.Last().runs == t.Last().runs && t'.Last().store.assets == t.Last().store.assets
    ensures t.Last().checks[v].disk in t'.Last().store.disks && t'.Last().store.disks[t.Last().checks[v].disk].status == DiskFailed
  {
    var sys, c := t.Last(), t.Last().checks[v];
    var failed := sys.(store := UpdateDiskStatus(sys.store, c.disk, DiskFailed, c.operator).store,
                       checks := sys.checks[v := c.(pc := Logging)]);
    Go(t, CheckFails(v), failed);
    t' := t.Then(CheckFails(v), failed);
  }

  lemma GoDone(t: Trace, g: nat) returns (t': Trace)
    requires t.Legal() && g in t.Last().runs && t.Last().runs[g].pc == Listed
    requires var asset := t.Last().runs[g].diskRow.asset;
             asset in t.Last().store.assets && t.Last().store.assets[asset].status == AssetErasing
    ensures Extended(t, MoveRun(g, AssetDone, Gone), t') && t'.Last().store.disks == t.Last().store.disks
    ensures var asset := t.Last().runs[g].diskRow.asset;
            asset in t'.Last().store.assets && t'.Last().store.assets[asset].status == AssetErasureDone
  {
    var sys, r := t.Last(), t.Last().runs[g];
    var s' := TransitionAsset(sys.store, r.diskRow.asset, AssetErasureDone, r.name, ErasureVerified).store;
    assert Step(sys.store, r, AssetDone, s', Gone);
    Go(t, MoveRun(g, AssetDone, Gone), Moved(sys, g, s', Gone));
    t' := t.Then(MoveRun(g, AssetDone, Gone), Moved(sys, g, s', Gone));
  }

  /**
   * The two store calls can be told apart: when a re-verification fails a disk between the listing and the move, the
   * asset becomes erasure verified although one of its disks has failed.
   */
  lemma FailsBetweenListingAndMove(sys: System, g: nat, v: nat) returns (t: Trace)
    requires g in sys.runs && sys.runs[g].pc == Certified && v in sys.checks && sys.checks[v].pc == Reading
    requires var s := sys.store; var asset := sys.runs[g].diskRow.asset;
             && AllDisksDone(s, asset) && asset in s.assets && s.assets[asset].status == AssetErasing
             && sys.checks[v].disk in s.disks && s.disks[sys.checks[v].disk].asset == asset
    ensures t.Legal() && t.states[0] == sys
    ensures t.events == [MoveRun(g, ListDisks, Listed), CheckFails(v), MoveRun(g, AssetDone, Gone)]
    ensures var s := t.Last().store;
            && sys.runs[g].diskRow.asset in s.assets && s.assets[sys.runs[g].diskRow.asset].status == AssetErasureDone
            && sys.checks[v].disk in s.disks && s.disks[sys.checks[v].disk].status == DiskFailed
  {
    t := GoList(Here(sys), g);
    t := GoFail(t, v);
    t := GoDone(t, g);
  }

  // ---- the approved terms ----

  /**
   * If no pull stopped half-way, a certificate's standard is that of the one active request of its asset, which
   * somebody other than its applicant approved.
   */
  lemma CertificateFollowsApproval(t: Trace, n: nat, certNo: string) returns (id: Id)
    requires t.Valid() && n < |t.states| && certNo in t.states[n].store.certs && t.WholeUpTo(n)
    ensures var s := t.states[n].store; var c := s.certs[certNo];
            && ApprovedFor(s.approvals, c.asset, id) && (forall x :: ActiveFor(s, c.asset, x) <==> x == id)
            && s.approvals[id].standard == c.standard
            && s.approvals[id].reviewer != "" && s.approvals[id].reviewer != s.approvals[id].applicant
  {
    EveryStateKept(t, n);
    var s := t.states[n].store;
    var c := s.certs[certNo];
    assert CertificateRests(s, certNo, c);
    assert s.assets[c.asset].status != AssetPending;
    id := ExactlyOneApproved(s, c.asset);
    assert s.disks[s.jobs[c.job].disk].asset == c.asset;
    assert ProperlyReviewed(s.approvals[id]);
  }

  /** Likewise every job wipes by the standard of the one approved request. */
  lemma JobFollowsApproval(t: Trace, n: nat, j: Id) returns (id: Id)
    requires t.Valid() && n < |t.states| && j in t.states[n].store.jobs && t.WholeUpTo(n)
    ensures var s := t.states[n].store;
            && s.jobs[j].disk in s.disks && ApprovedFor(s.approvals, s.disks[s.jobs[j].disk].asset, id)
            && (forall x :: ActiveFor(s, s.disks[s.jobs[j].disk].asset, x) <==> x == id)
            && s.approvals[id].standard == s.jobs[j].standard
  {
    EveryStateKept(t, n);
    var s := t.states[n].store;
    assert s.jobs[j].disk in s.disks;
    id := ExactlyOneApproved(s, s.disks[s.jobs[j].disk].asset);
  }

  /** An asset is disposed exactly when it has its row; the row follows the approved route, or destroys a scrapped asset. */
  lemma DisposalFollowsApproval(t: Trace, n: nat, asset: Id) returns (id: Id)
    requires t.Valid() && n < |t.states| && asset in t.states[n].store.assets
    ensures var s := t.states[n].store;
            && (s.assets[asset].status == AssetDisposed <==> asset in s.disposals)
            && (asset in s.disposals ==>
                  && ApprovedFor(s.approvals, asset, id) && (forall x :: ActiveFor(s, asset, x) <==> x == id)
                  && (s.disposals[asset].route == s.approvals[id].route
                      || (s.disposals[asset].route == "destroy" && WasScrapped(s.audit, asset))))
  {
    EveryStateKept(t, n);
    var s := t.states[n].store;
    if asset in s.disposals {
      id := ExactlyOneApproved(s, asset);
    } else {
      id := "";
    }
  }

  // ---- over time ----

  /** Execution has begun: the asset is past pending. */
  predicate Begun(a: Asset) {
    Stage(a.status) > Stage(AssetPending)
  }

  /** What an earlier state fixes for every later one. */
  ghost predicate Forward(s: Store, s': Store) {
    && s.audit <= s'.audit && Extends(s.certs, s'.certs) && Extends(s.disposals, s'.disposals)
    && AssetsAdvance(s.assets, s'.assets) && DisksStay(s.disks, s'.disks)
    && (forall a, id :: a in s.assets && Begun(s.assets[a]) && ApprovedFor(s.approvals, a, id) ==> KeepsRequest(s, s', id))
  }

  lemma CallForward(s: Store, call: Call)
    requires Kept(s) && Permitted(s, call)
    ensures Forward(s, Perform(s, call))
  {
    CallKeepsFinal(s, call);
    CallNeverEntersDone(s, call);
    forall a, id | a in s.assets && Begun(s.assets[a]) && ApprovedFor(s.approvals, a, id)
      ensures KeepsRequest(s, Perform(s, call), id)
    {
      ApprovalFrozen(s, call, a, id);
    }
  }

  lemma OthersForward(s: Store, s': Store, own: Id)
    requires Others(s, s', own)
    ensures Forward(s, s')
  {}

  lemma MoveForward(s: Store, r: Runner, move: Move, s': Store, pc: Pc)
    requires Final(s) && Stands(s, r) && Step(s, r, move, s', pc)
    ensures Forward(s, s')
  {
    MoveKeepsFinal(s, r, move, s', pc);
    OthersForward(s, s', r.job);
  }

  lemma CheckFailsForward(s: Store, disk: Id, operator: string)
    ensures Forward(s, UpdateDiskStatus(s, disk, DiskFailed, operator).store)
  {
    DiskMoved(s, disk, DiskFailed, operator);
  }

  lemma CheckLogsForward(s: Store, row: Audit)
    ensures Forward(s, AppendAudit(s, row).store)
  {}

  lemma SameForward(s: Store)
    ensures Forward(s, s)
  {
    OthersReflexive(s, "");
    OthersForward(s, s, "");
  }

  lemma ClaimForward(s: Store, j: Id, worker: string, now: nat)
    requires j in s.jobs
    ensures Forward(s, Claim(s, j, worker, now))
  {}

  lemma ClaimStepForward(sys: System, inst: string, name: string, job: Id, run: nat, sys': System)
    requires Next(sys, ClaimJob(inst, name, job, run), sys')
    ensures Forward(sys.store, sys'.store)
  {
    ClaimForward(sys.store, job, inst, sys.now);
  }

  lemma StepForward(sys: System, event: Event, sys': System)
    requires Inv(sys) && Next(sys, event, sys')
    ensures Forward(sys.store, sys'.store)
  {
    if Storing(event) {
      StoringForward(sys, event, sys');
    } else {
      IdleStep(sys, event, sys');
      SameForward(sys.store);
    }
  }

  lemma StoringForward(sys: System, event: Event, sys': System)
    requires Inv(sys) && Next(sys, event, sys') && Storing(event)
    ensures Forward(sys.store, sys'.store)
  {
    if event.MoveRun? {
      MoveForward(sys.store, sys.runs[event.run], event.move, sys'.store, event.pc);
    } else if event.ServiceCall? {
      CallForward(sys.store, event.call);
    } else if event.ClaimJob? {
      ClaimStepForward(sys, event.inst, event.name, event.job, event.run, sys');
    } else {
      CheckForward(sys, event, sys');
    }
  }

  lemma CheckForward(sys: System, event: Event, sys': System)
    requires Next(sys, event, sys') && (event.CheckFails? || event.CheckLogs?)
    ensures Forward(sys.store, sys'.store)
  {
    var c := sys.checks[event.check];
    if event.CheckFails? {
      CheckFailsForward(sys.store, c.disk, c.operator);
    } else {
      CheckLogsForward(sys.store, CheckRow(c));
    }
  }

  lemma ForwardTransitive(a: Store, b: Store, c: Store)
    requires Forward(a, b) && Forward(b, c)
    ensures Forward(a, c)
  {
    RowsTransitive(a, b, c);
    forall x, id | x in a.assets && Begun(a.assets[x]) && ApprovedFor(a.approvals, x, id)
      ensures KeepsRequest(a, c, id)
    {
      assert KeepsRequest(a, b, id);
      assert x in b.assets && Begun(b.assets[x]) && ApprovedFor(b.approvals, x, id);
    }
  }

  /**
   * Between any two moments of a run: the earlier log is a prefix of the later one, certificates and disposal
   * rows stay as they are, assets only move forward, and the approved request of an asset whose execution has
   * begun is neither withdrawn, nor rejected, nor replaced.
   */
  lemma {:induction false} LaterStates(t: Trace, m: nat, n: nat)
    requires t.Valid() && m <= n < |t.states|
    ensures Forward(t.states[m].store, t.states[n].store)
    decreases n
  {
    if m == n {
      SameForward(t.states[n].store);
    } else {
      LaterStates(t, m, n - 1);
      NextState(t, n - 1);
      ForwardTransitive(t.states[m].store, t.states[n - 1].store, t.states[n].store);
    }
  }

  lemma NextState(t: Trace, n: nat)
    requires t.Valid() && n < |t.events|
    ensures Forward(t.states[n].store, t.states[n + 1].store)
  {
    EveryStateKept(t, n);
    assert t.StepAt(n);
    StepForward(t.states[n], t.events[n], t.states[n + 1]);
  }

  /** The audit log alone tells the status of every asset, disk and request. */
  lemma LogTellsStatus(t: Trace, n: nat)
    requires t.Valid() && n < |t.states|
    ensures var s := t.states[n].store;
            && (forall a :: a in s.assets ==> ReplayAsset(s.audit, a) == Some(s.assets[a].status))
            && (forall d :: d in s.disks ==> ReplayDisk(s.audit, d) == s.disks[d].status)
            && (forall p :: p in s.approvals ==> ReplayApproval(s.audit, p) == Some(s.approvals[p].status))
  {
    EveryStateKept(t, n);
  }

  /** Versions of an asset's requests are 1 to their number in filing order, and only the newest can be active. */
  lemma RequestHistory(t: Trace, n: nat, asset: Id, v: nat)
    requires t.Valid() && n < |t.states|
    ensures var s := t.states[n].store; var ids := ApprovalsOf(s, asset);
            && (1 <= v <= |ids| <==> exists x :: x in ids && s.approvals[x].version == v)
            && (forall x, y :: x in ids && y in ids && x != y ==> s.approvals[x].version != s.approvals[y].version)
            && (forall x :: x in ids && Active(s.approvals[x].status) ==> s.approvals[x].version == |ids|)
            && (forall i, j :: 0 <= i < j < |s.audit| && SubmitsBoth(s.approvals, s.audit[i], s.audit[j]) ==>
                  s.approvals[s.audit[i].id].version < s.approvals[s.audit[j].id].version)
  {
    EveryStateKept(t, n);
    VersionsAreExact(t.states[n].store, asset, v);
  }

  // ---- scrapped disks ----

  lemma JobsAfterScrap(s: Store, disk: Id, operator: string)
    requires CanScrap(s, disk, operator)
    ensures var jobs := Scrap(s, disk, operator).store.jobs;
            && (NoneVerifying(s.jobs, disk) ==> JobsOver(jobs, disk))
            && (forall j :: j in s.jobs && s.jobs[j].status == JobVerifying ==> j in jobs && jobs[j] == s.jobs[j])
  {
    ScrappedDisks(s, disk, operator);
  }

  lemma ScrapStep(sys: System, disk: Id, operator: string) returns (sys': System)
    requires Inv(sys) && CanScrap(sys.store, disk, operator)
    ensures sys' == sys.(store := Scrap(sys.store, disk, operator).store) && Inv(sys') && IsScrapped(sys'.store, disk)
  {
    sys' := sys.(store := Scrap(sys.store, disk, operator).store);
    PerformScrap(sys.store, disk, operator);
    CallStep(sys, CallScrap(disk, operator));
    ScrappedNow(sys.store, disk, operator);
  }

  lemma PerformScrap(s: Store, disk: Id, operator: string)
    ensures Perform(s, CallScrap(disk, operator)) == Scrap(s, disk, operator).store && Permitted(s, CallScrap(disk, operator))
  {}

  lemma ScrappedNow(s: Store, disk: Id, operator: string)
    requires CanScrap(s, disk, operator)
    ensures IsScrapped(Scrap(s, disk, operator).store, disk)
  {
    ScrappedDisks(s, disk, operator);
  }

  /**
   * Exactly when scrapping a disk is final. In every continuation the disk stays scrapped if and only if, at the
   * call, no live run on it has a disk update ahead, no job of it is verifying and no re-verification of it is
   * waiting or reading. Otherwise some continuation takes the disk back into use.
   */
  lemma ScrapIsFinal(sys: System, disk: Id, operator: string)
    requires Inv(sys) && CanScrap(sys.store, disk, operator)
    ensures StaysScrapped(sys.(store := Scrap(sys.store, disk, operator).store), disk) <==> NothingUnderWay(sys, disk)
  {
    var sys' := ScrapStep(sys, disk, operator);
    JobsAfterScrap(sys.store, disk, operator);
    if NothingUnderWay(sys, disk) {
      forall t: Trace | t.Legal() && t.states[0] == sys' ensures IsScrapped(t.Last().store, disk) {
        RetiredForever(t, |t.states| - 1, disk);
      }
    } else if !NoRunAhead(sys.runs, disk) {
      var t := RunGoesOn(sys', disk);
    } else if !NoCheckAhead(sys.checks, disk) {
      var t := CheckGoesOn(sys', disk);
    } else {
      var t := JobGoesOn(sys', sys.store.jobs, disk);
    }
  }

  lemma RunGoesOn(sys: System, disk: Id) returns (t: Trace)
    requires Inv(sys) && !NoRunAhead(sys.runs, disk)
    ensures t.Legal() && t.states[0] == sys && !IsScrapped(t.Last().store, disk)
  {
    var g :| g in sys.runs && sys.runs[g].jobRow.disk == disk && UpdateAhead(sys.runs[g].pc);
    t := Continuations.RunRevives(Here(sys), g);
  }

  lemma CheckGoesOn(sys: System, disk: Id) returns (t: Trace)
    requires Inv(sys) && !NoCheckAhead(sys.checks, disk)
    ensures t.Legal() && t.states[0] == sys && !IsScrapped(t.Last().store, disk)
  {
    var v := SomeCheckAhead(sys.checks, disk);
    if sys.checks[v].pc == Waiting {
      t := Continuations.WaitingCheckRevives(Here(sys), v);
    } else {
      t := Continuations.CheckRevives(Here(sys), v);
    }
  }

  lemma SomeCheckAhead(checks: map<nat, Check>, disk: Id) returns (v: nat)
    requires !NoCheckAhead(checks, disk)
    ensures v in checks && checks[v].disk == disk && checks[v].pc != Logging
  {
    v :| v in checks && checks[v].disk == disk && checks[v].pc != Logging;
  }

  lemma JobGoesOn(sys: System, jobs: map<Id, Job>, disk: Id) returns (t: Trace)
    requires Inv(sys) && !NoneVerifying(jobs, disk)
    requires forall j :: j in jobs && jobs[j].status == JobVerifying ==> j in sys.store.jobs && sys.store.jobs[j] == jobs[j]
    ensures t.Legal() && t.states[0] == sys && !IsScrapped(t.Last().store, disk)
  {
    var j :| j in jobs && jobs[j].disk == disk && jobs[j].status == JobVerifying;
    t := Continuations.VerifyingJobRevives(Here(sys), j);
  }

  /** The same over the runs of the system from the very beginning. */
  lemma ScrappedDiskStays(t: Trace, n: nat, disk: Id, operator: string)
    requires t.Valid() && n < |t.events| && t.events[n] == ServiceCall(CallScrap(disk, operator))
    requires CanScrap(t.states[n].store, disk, operator)
    ensures StaysScrapped(t.states[n + 1], disk) <==> NothingUnderWay(t.states[n], disk)
    ensures NothingUnderWay(t.states[n], disk) ==> forall m :: n < m < |t.states| ==> IsScrapped(t.states[m].store, disk)
  {
    EveryStateKept(t, n);
    assert t.StepAt(n);
    ScrapIsFinal(t.states[n], disk, operator);
    if NothingUnderWay(t.states[n], disk) {
      forall m | n < m < |t.states| ensures IsScrapped(t.states[m].store, disk) {
        var rest := Part(t, n + 1, m);
        assert rest.Last() == t.states[m];
      }
    }
  }

  lemma Part(t: Trace, m: nat, n: nat) returns (part: Trace)
    requires t.Legal() && m <= n < |t.states|
    ensures part.Legal() && part.states[0] == t.states[m] && part.Last() == t.states[n]
  {
    part := Trace(t.states[m..n + 1], t.events[m..n]);
    forall i | 0 <= i < |part.events| ensures part.StepAt(i) {
      assert t.StepAt(m + i);
    }
  }
}
