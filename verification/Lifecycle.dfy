/**
 * That the protocol can be carried through: an asset can be registered, approved and pulled, its disks can be wiped and
 * certified, and it can be disposed, in every state the system can be in. Each step is shown to do what it is for.
 */
module Lifecycle {
  import opened Domain
  import opened StoreModel
  import opened History
  import opened ServiceRules
  import opened RunnerModel
  import opened Gate
  import opened CallEffects
  import opened Finality
  import opened SystemModel
  import opened Continuations
  import opened Verdicts
  import opened Tags
  import ServiceCalls
  import CertNumber

  // ---- a run that nothing interrupts wipes its disk and certifies it ----

  /** The run `g` has come this far; clock and other runs play no part. */
  ghost predicate RunAt(t: Trace, g: nat, r: Runner, pc: Pc) {
    t.Legal() && Inv(t.Last()) && g in t.Last().runs && t.Last().runs[g] == r.(pc := pc)
  }

  /** Of all that matters here, only the disks differ. */
  ghost predicate OnlyDisks(s: Store, s': Store, disks: map<Id, Disk>) {
    s'.disks == disks && s'.assets == s.assets && s'.approvals == s.approvals && s'.disposals == s.disposals && s'.certs == s.certs
  }

  function SetStatus(disks: map<Id, Disk>, d: Id, status: DiskStatus): map<Id, Disk> {
    if d in disks then disks[d := disks[d].(status := status)] else disks
  }

  lemma Known(t: Trace, g: nat)
    requires t.Legal() && Inv(t.Last()) && g in t.Last().runs
    ensures Stands(t.Last().store, t.Last().runs[g]) && Knows(t.Last().store, t.Last().runs[g])
    ensures t.Last().runs[g].jobRow.standard in STANDARDS
  {
    assert Stands(t.Last().store, t.Last().runs[g]);
    KnownStandard(t.Last().store, t.Last().runs[g]);
  }

  /** The run takes one more step. */
  lemma RunGoes(t: Trace, g: nat, r: Runner, from: Pc, move: Move, s': Store, pc: Pc) returns (t': Trace)
    requires RunAt(t, g, r, from) && pc != Gone
    requires OnTime(move, t.Last().now) && Step(t.Last().store, r.(pc := from), move, s', pc)
    ensures Longer(t, t') && RunAt(t', g, r, pc) && t'.Last().store == s'
  {
    t' := GoMove(t, g, move, s', pc);
  }

  lemma MarkingStep(s: Store, r: Runner, now: nat) returns (s': Store)
    requires Knows(s, r) && r.pc == Claimed && r.jobRow.standard in STANDARDS
    ensures Step(s, r, MarkRunning(now), s', Marked) && OnlyDisks(s, s', s.disks)
  {
    s' := MarkJobRunning(s, r.job, r.jobRow.attempt, now).store;
  }

  lemma DiskStatusStep(s: Store, r: Runner) returns (move: Move, s': Store, pc: Pc)
    requires Knows(s, r) && (r.pc == Marked || r.pc.Saved?)
    ensures Step(s, r, move, s', pc) && forall now :: OnTime(move, now)
    ensures pc == if r.pc == Marked then Working else DiskMarked(r.pc.bytes)
    ensures OnlyDisks(s, s', SetStatus(s.disks, r.jobRow.disk, if r.pc == Marked then DiskErasing else DiskVerified))
  {
    if r.pc == Marked {
      move, s', pc := MarkDisk, UpdateDiskStatus(s, r.jobRow.disk, DiskErasing, r.name).store, Working;
    } else {
      move, s', pc := DiskVerifiedMove, UpdateDiskStatus(s, r.jobRow.disk, DiskVerified, r.name).store, DiskMarked(r.pc.bytes);
    }
  }

  lemma SavingStep(s: Store, r: Runner, now: nat) returns (s': Store)
    requires Knows(s, r) && r.pc == Working && r.jobRow.standard in STANDARDS
    ensures Step(s, r, SaveVerified(0, 0, now), s', Saved(0)) && OnlyDisks(s, s', s.disks)
  {
    BuiltInStandards(r.jobRow.standard);
    s' := SaveProgress(s, r.job, |STANDARDS[r.jobRow.standard].passes| - 1, 0, 0, JobVerified, now).store;
  }

  lemma RecordingStep(s: Store, r: Runner) returns (move: Move, s': Store)
    requires Knows(s, r) && r.pc == DiskMarked(0) && r.jobRow.standard in STANDARDS
    ensures Step(s, r, move, s', Recorded(0)) && (forall now :: OnTime(move, now)) && OnlyDisks(s, s', s.disks)
  {
    var run := Run(0, false, 0, STANDARDS[r.jobRow.standard].mode, 0, 0, RunVerified);
    move, s' := Record(run), CompleteJob(s, r.job, JobVerified, run).store;
  }

  lemma RunBegins(t: Trace, g: nat, r: Runner) returns (t': Trace)
    requires RunAt(t, g, r, Claimed)
    ensures Longer(t, t') && RunAt(t', g, r, Working)
    ensures OnlyDisks(t.Last().store, t'.Last().store, SetStatus(t.Last().store.disks, r.jobRow.disk, DiskErasing))
  {
    Known(t, g);
    var s1 := MarkingStep(t.Last().store, t.Last().runs[g], t.Last().now);
    t' := RunGoes(t, g, r, Claimed, MarkRunning(t.Last().now), s1, Marked);
    t' := RunMarksDisk(t', g, r, Marked);
  }

  lemma RunMarksDisk(t: Trace, g: nat, r: Runner, from: Pc) returns (t': Trace)
    requires RunAt(t, g, r, from) && (from == Marked || from == Saved(0))
    ensures Longer(t, t') && RunAt(t', g, r, if from == Marked then Working else DiskMarked(0))
    ensures OnlyDisks(t.Last().store, t'.Last().store,
                      SetStatus(t.Last().store.disks, r.jobRow.disk, if from == Marked then DiskErasing else DiskVerified))
  {
    Known(t, g);
    var move, s', pc := DiskStatusStep(t.Last().store, t.Last().runs[g]);
    t' := RunGoes(t, g, r, from, move, s', pc);
  }

  lemma RunPasses(t: Trace, g: nat, r: Runner) returns (t': Trace)
    requires RunAt(t, g, r, Working)
    ensures Longer(t, t') && RunAt(t', g, r, DiskMarked(0))
    ensures OnlyDisks(t.Last().store, t'.Last().store, SetStatus(t.Last().store.disks, r.jobRow.disk, DiskVerified))
  {
    Known(t, g);
    var s1 := SavingStep(t.Last().store, t.Last().runs[g], t.Last().now);
    t' := RunGoes(t, g, r, Working, SaveVerified(0, 0, t.Last().now), s1, Saved(0));
    t' := RunMarksDisk(t', g, r, Saved(0));
  }

  // a day on which no certificate has been issued

  lemma {:induction false} LongerThanAll(names: set<string>) returns (n: nat)
    ensures forall x :: x in names ==> |x| < n
    decreases |names|
  {
    n := 0;
    if x :| x in names {
      n := LongerThanAll(names - {x});
      assert forall y :: y in names ==> y == x || y in names - {x};
      n := if n > |x| then n else |x| + 1;
    }
  }

  lemma NumberIsLong(day: string, tag: string, serial: string, attempt: nat)
    ensures |CertNumber.Number(day, tag, serial, attempt)| >= |day|
  {
    var f := CertNumber.Fields(day, tag, serial, attempt);
    JoinIsLong(f, 1);
  }

  lemma {:induction false} JoinIsLong(fields: seq<string>, k: nat)
    requires k < |fields|
    ensures |CertNumber.Join(fields)| >= |fields[k]|
    decreases |fields|
  {
    if k < |fields| - 1 {
      JoinIsLong(fields[..|fields| - 1], k);
    }
  }

  lemma FreeDay(s: Store, r: Runner) returns (day: string)
    requires r.diskRow.asset in s.assets
    ensures CertNumber.IsDay(day) && CertificateNumber(s, r, day) !in s.certs
  {
    var n := LongerThanAll(s.certs.Keys);
    day := seq(n, _ => '0');
    NumberIsLong(day, s.assets[r.diskRow.asset].tag, r.diskRow.serial, r.jobRow.attempt);
  }

  ghost predicate Certifies(s: Store, s': Store, certNo: string, r: Runner) {
    && certNo !in s.certs && certNo in s'.certs && s'.certs == s.certs[certNo := s'.certs[certNo]]
    && s'.certs[certNo].disk == r.jobRow.disk && s'.certs[certNo].job == r.job
    && s'.disks == s.disks && s'.assets == s.assets && s'.approvals == s.approvals && s'.disposals == s.disposals
  }

  lemma CertifyingStep(s: Store, r: Runner) returns (move: Move, s': Store, certNo: string)
    requires Sound(s) && Knows(s, r) && r.pc == Recorded(0) && r.jobRow.standard in STANDARDS
    ensures Step(s, r, move, s', Certified) && (forall now :: OnTime(move, now)) && Certifies(s, s', certNo, r)
  {
    assert r.diskRow.asset in s.assets;
    var day := FreeDay(s, r);
    certNo := CertificateNumber(s, r, day);
    move, s' := Certify(day), SaveCertificate(s, certNo, CertificateOf(r, STANDARDS[r.jobRow.standard], 0)).store;
  }

  lemma RunCertifies(t: Trace, g: nat, r: Runner) returns (t': Trace, certNo: string)
    requires RunAt(t, g, r, DiskMarked(0))
    ensures Longer(t, t') && RunAt(t', g, r, Certified) && Certifies(t.Last().store, t'.Last().store, certNo, r)
  {
    Known(t, g);
    var move, s1 := RecordingStep(t.Last().store, t.Last().runs[g]);
    t' := RunGoes(t, g, r, DiskMarked(0), move, s1, Recorded(0));
    t', certNo := RunIssues(t', g, r);
  }

  lemma RunIssues(t: Trace, g: nat, r: Runner) returns (t': Trace, certNo: string)
    requires RunAt(t, g, r, Recorded(0))
    ensures Longer(t, t') && RunAt(t', g, r, Certified) && Certifies(t.Last().store, t'.Last().store, certNo, r)
  {
    Known(t, g);
    var move, s';
    move, s', certNo := CertifyingStep(t.Last().store, t.Last().runs[g]);
    t' := RunGoes(t, g, r, Recorded(0), move, s', Certified);
  }

  // ---- the last disk takes the asset with it ----

  /** Of all that matters here, only the status of one asset differs. */
  ghost predicate OnlyAsset(s: Store, s': Store, asset: Id, status: AssetStatus) {
    && asset in s.assets && s'.assets == s.assets[asset := s.assets[asset].(status := status)]
    && s'.disks == s.disks && s'.approvals == s.approvals && s'.disposals == s.disposals && s'.certs == s.certs
  }

  lemma LeavingStep(s: Store, r: Runner) returns (s': Store)
    requires r.pc == Listed && r.diskRow.asset in s.assets && s.assets[r.diskRow.asset].status == AssetErasing
    ensures Step(s, r, AssetDone, s', Gone) && OnlyAsset(s, s', r.diskRow.asset, AssetErasureDone)
  {
    s' := TransitionAsset(s, r.diskRow.asset, AssetErasureDone, r.name, ErasureVerified).store;
  }

  lemma RunLists(t: Trace, g: nat, r: Runner) returns (t': Trace)
    requires RunAt(t, g, r, Certified)
    ensures Longer(t, t') && t'.Last().store == t.Last().store
    ensures AllDisksDone(t.Last().store, r.diskRow.asset) ==> RunAt(t', g, r, Listed)
  {
    var s := t.Last().store;
    if AllDisksDone(s, r.diskRow.asset) {
      t' := RunGoes(t, g, r, Certified, ListDisks, s, Listed);
    } else {
      t' := GoMove(t, g, ListDisks, s, Gone);
    }
  }

  lemma RunLeaves(t: Trace, g: nat, r: Runner) returns (t': Trace)
    requires RunAt(t, g, r, Certified) && r.diskRow.asset in t.Last().store.assets
    requires t.Last().store.assets[r.diskRow.asset].status == AssetErasing
    ensures Longer(t, t')
    ensures OnlyAsset(t.Last().store, t'.Last().store, r.diskRow.asset,
                      if AllDisksDone(t.Last().store, r.diskRow.asset) then AssetErasureDone else AssetErasing)
  {
    var s := t.Last().store;
    t' := RunLists(t, g, r);
    if AllDisksDone(s, r.diskRow.asset) {
      t' := RunMovesAsset(t', g, r);
    } else {
      StillErasing(s, r.diskRow.asset);
    }
  }

  lemma RunMovesAsset(t: Trace, g: nat, r: Runner) returns (t': Trace)
    requires RunAt(t, g, r, Listed) && r.diskRow.asset in t.Last().store.assets
    requires t.Last().store.assets[r.diskRow.asset].status == AssetErasing
    ensures Longer(t, t') && OnlyAsset(t.Last().store, t'.Last().store, r.diskRow.asset, AssetErasureDone)
  {
    var s' := LeavingStep(t.Last().store, t.Last().runs[g]);
    t' := GoMove(t, g, AssetDone, s', Gone);
  }

  lemma StillErasing(s: Store, asset: Id)
    requires asset in s.assets && s.assets[asset].status == AssetErasing
    ensures OnlyAsset(s, s, asset, AssetErasing)
  {
    assert s.assets == s.assets[asset := s.assets[asset].(status := AssetErasing)];
  }

  /** A run of a job from the claim to the end: its disk is verified and certified, and its asset done if all disks are. */
  ghost predicate WipedBy(s: Store, s': Store, d: Id, asset: Id, certNo: string) {
    && d in s.disks && s'.disks == s.disks[d := s.disks[d].(status := DiskVerified)]
    && asset in s.assets
    && s'.assets == s.assets[asset := s.assets[asset].(status := if AllDisksDone(s', asset) then AssetErasureDone else AssetErasing)]
    && certNo !in s.certs && certNo in s'.certs && s'.certs == s.certs[certNo := s'.certs[certNo]] && s'.certs[certNo].disk == d
    && s'.approvals == s.approvals && s'.disposals == s.disposals
  }

  lemma RunWipes(t: Trace, g: nat, r: Runner) returns (t': Trace, certNo: string)
    requires RunAt(t, g, r, Claimed) && r.diskRow.asset in t.Last().store.assets
    requires t.Last().store.assets[r.diskRow.asset].status == AssetErasing
    ensures Longer(t, t') && WipedBy(t.Last().store, t'.Last().store, r.jobRow.disk, r.diskRow.asset, certNo)
  {
    Known(t, g);
    var s := t.Last().store;
    var t1 := RunBegins(t, g, r);
    var t2 := RunPasses(t1, g, r);
    var t3;
    t3, certNo := RunCertifies(t2, g, r);
    t' := RunLeaves(t3, g, r);
    StatusTwice(s.disks, r.jobRow.disk);
    SameDone(t3.Last().store, t'.Last().store, r.diskRow.asset);
  }

  lemma StatusTwice(disks: map<Id, Disk>, d: Id)
    requires d in disks
    ensures SetStatus(SetStatus(disks, d, DiskErasing), d, DiskVerified) == disks[d := disks[d].(status := DiskVerified)]
  {}

  lemma SameDone(s: Store, s': Store, asset: Id)
    requires s'.disks == s.disks
    ensures AllDisksDone(s', asset) == AllDisksDone(s, asset)
  {}

  // ---- a pending job gets its run ----

  function PendingOf(jobs: map<Id, Job>): (js: set<Id>)
    ensures js <= jobs.Keys
  {
    set j | j in jobs && jobs[j].status == JobPending
  }

  /** A claim of any pending job, or of this one, is what the store may do. */
  lemma SomePendingClaimable(s: Store, worker: string, staleAfter: nat, now: nat, j: Id) returns (p: Id)
    requires j in s.jobs && s.jobs[j].status == JobPending
    ensures p in s.jobs && s.jobs[p].status == JobPending && Acquired(s, worker, staleAfter, now, Claim(s, p, worker, now), Some(p))
  {
    if o :| o in s.jobs && Orphan(s, o, worker, staleAfter, now) {
      p := j;
    } else {
      assert j in PendingOf(s.jobs);
      p := OldestPending(s, PendingOf(s.jobs));
      assert forall q :: q in s.jobs && s.jobs[q].status == JobPending ==> q in PendingOf(s.jobs);
    }
  }

  lemma ClaimedOne(jobs: map<Id, Job>, p: Id, job: Job)
    requires p in jobs && jobs[p].status == JobPending && job.status != JobPending
    ensures PendingOf(jobs[p := job]) == PendingOf(jobs) - {p} && |PendingOf(jobs[p := job])| == |PendingOf(jobs)| - 1
  {
    assert PendingOf(jobs[p := job]) == PendingOf(jobs) - {p};
  }

  /** One instance alone, in its starting window, with a free slot for every pending job. */
  ghost predicate Roomy(sys: System, inst: string) {
    && sys.live.Keys == {inst} && sys.live[inst].starting && !sys.live[inst].claiming
    && sys.live[inst].workers >= sys.live[inst].busy + |PendingOf(sys.store.jobs)|
  }

  function Taken(sys: System, inst: string): System
    requires inst in sys.live
  {
    With(sys, inst, sys.live[inst].(busy := sys.live[inst].busy + 1, claiming := true))
  }

  lemma TakesSlot(t: Trace, inst: string, j: Id) returns (t': Trace)
    requires t.Legal() && Inv(t.Last()) && Roomy(t.Last(), inst) && j in PendingOf(t.Last().store.jobs)
    ensures Longer(t, t') && inst in t.Last().live && t'.Last() == Taken(t.Last(), inst)
  {
    SlotIsFree(t.Last(), inst, j);
    t' := GoOn(t, TakeSlot(inst), Taken(t.Last(), inst));
  }

  lemma SlotIsFree(sys: System, inst: string, j: Id)
    requires Roomy(sys, inst) && j in PendingOf(sys.store.jobs)
    ensures inst in sys.live && Next(sys, TakeSlot(inst), Taken(sys, inst))
  {
    SlotForPending(sys, inst, j);
  }

  lemma PendingClaimable(sys: System, inst: string, j: Id) returns (p: Id)
    requires Roomy(sys, inst) && inst in sys.live && j in PendingOf(sys.store.jobs)
    ensures p in PendingOf(sys.store.jobs) && Claimable(Taken(sys, inst), inst, p)
  {
    p := SomePendingClaimable(sys.store, inst, 0, sys.now, j);
  }

  lemma StillRoomy(sys: System, inst: string, p: Id, g: nat)
    requires Roomy(sys, inst) && inst in sys.live && p in PendingOf(sys.store.jobs) && sys.store.jobs[p].disk in sys.store.disks
    ensures Roomy(Claiming(Taken(sys, inst), inst, p, g), inst)
  {
    var s' := Claim(sys.store, p, inst, sys.now);
    ClaimedOne(sys.store.jobs, p, s'.jobs[p]);
  }

  lemma ClaimsPending(t: Trace, inst: string, j: Id) returns (t': Trace, g: nat, p: Id)
    requires t.Legal() && Inv(t.Last()) && Roomy(t.Last(), inst) && j in PendingOf(t.Last().store.jobs)
    ensures p in PendingOf(t.Last().store.jobs) && t.Last().store.jobs[p].disk in t.Last().store.disks
    ensures Longer(t, t') && Roomy(t'.Last(), inst) && g in t'.Last().runs
    ensures t'.Last().store == Claim(t.Last().store, p, inst, t.Last().now)
    ensures t'.Last().runs[g] == NewRun(t'.Last().store, inst, "", p)
  {
    var sys := t.Last();
    t' := TakesSlot(t, inst, j);
    p := PendingClaimable(sys, inst, j);
    t', g := ClaimsJob(t', inst, p);
    StillRoomy(sys, inst, p, g);
  }

  lemma SlotForPending(sys: System, inst: string, j: Id)
    requires Roomy(sys, inst) && j in PendingOf(sys.store.jobs)
    ensures sys.live[inst].busy < sys.live[inst].workers
  {
    assert PendingOf(sys.store.jobs) != {};
  }

  /** The run is one of job `j`, on its disk, by its standard. */
  ghost predicate RunOf(s: Store, r: Runner, j: Id) {
    && j in s.jobs && s.jobs[j].disk in s.disks && r.job == j && r.pc == Claimed
    && r.jobRow.disk == s.jobs[j].disk && r.diskRow == s.disks[s.jobs[j].disk]
  }

  lemma ClaimFrame(s: Store, p: Id, inst: string, now: nat)
    requires p in PendingOf(s.jobs)
    ensures var s' := Claim(s, p, inst, now);
            && OnlyDisks(s, s', s.disks) && p !in PendingOf(s'.jobs) && |PendingOf(s'.jobs)| < |PendingOf(s.jobs)|
            && (forall j :: j in PendingOf(s.jobs) && j != p ==> j in PendingOf(s'.jobs) && s'.jobs[j] == s.jobs[j])
  {
    ClaimedOne(s.jobs, p, Claim(s, p, inst, now).jobs[p]);
  }

  lemma RunOfClaimed(s: Store, p: Id, inst: string, now: nat)
    requires p in s.jobs && s.jobs[p].disk in s.disks
    ensures RunOf(s, NewRun(Claim(s, p, inst, now), inst, "", p), p)
  {}

  lemma RunOfLater(s: Store, s': Store, r: Runner, j: Id)
    requires j in s.jobs && j in s'.jobs && s'.jobs[j] == s.jobs[j] && s'.disks == s.disks && RunOf(s', r, j)
    ensures RunOf(s, r, j)
  {}

  /** Whatever else is waiting, the job's turn comes. */
  lemma {:induction false} GetsRun(t: Trace, inst: string, j: Id) returns (t': Trace, g: nat)
    requires t.Legal() && Inv(t.Last()) && Roomy(t.Last(), inst) && j in PendingOf(t.Last().store.jobs)
    ensures Longer(t, t') && g in t'.Last().runs && RunOf(t.Last().store, t'.Last().runs[g], j)
    ensures OnlyDisks(t.Last().store, t'.Last().store, t.Last().store.disks)
    decreases |PendingOf(t.Last().store.jobs)|
  {
    var s := t.Last().store;
    var p;
    t', g, p := ClaimsPending(t, inst, j);
    ClaimFrame(s, p, inst, t.Last().now);
    if p == j {
      RunOfClaimed(s, p, inst, t.Last().now);
    } else {
      var s1 := t'.Last().store;
      t', g := GetsRun(t', inst, j);
      RunOfLater(s, s1, t'.Last().runs[g], j);
    }
  }

  /** Everything can be restarted, with as many slots as there are jobs. */
  lemma Restarted(t: Trace) returns (t': Trace, inst: string)
    requires t.Legal() && Inv(t.Last())
    ensures Longer(t, t') && Roomy(t'.Last(), inst) && t'.Last().store == t.Last().store
  {
    inst := "a";
    t' := AllDie(t);
    t' := Continuations.Starts(t', inst, |PendingOf(t.Last().store.jobs)| + 1);
  }

  // ---- a disk is ordered and wiped ----

  lemma GoCall(t: Trace, call: Call) returns (t': Trace)
    requires t.Legal() && Inv(t.Last()) && Permitted(t.Last().store, call)
    ensures Longer(t, t') && t'.Last() == t.Last().(store := Perform(t.Last().store, call))
  {
    t' := GoOn(t, ServiceCall(call), t.Last().(store := Perform(t.Last().store, call)));
  }

  lemma FreshName(used: set<string>) returns (name: string)
    ensures name !in used
  {
    var n := LongerThanAll(used);
    name := seq(n, _ => 'x');
  }

  /** The disk can be ordered for its asset by the standard of the approved request `x`. */
  ghost predicate Orderable(s: Store, d: Id, x: Id) {
    && d in s.disks && s.disks[d].asset in s.assets && ApprovedIs(s, s.disks[d].asset, x) && s.approvals[x].standard in STANDARDS
    && (s.disks[d].status == DiskPulled || s.disks[d].status == DiskFailed)
    && (s.assets[s.disks[d].asset].status == AssetErasing
        || (s.assets[s.disks[d].asset].status == AssetDiskPulled && s.disks[d].status == DiskPulled))
  }

  /** A pending job for the disk, whose asset is being erased; nothing else that matters here differs. */
  ghost predicate JobWaits(s: Store, s': Store, d: Id, id: Id) {
    && d in s.disks && id in PendingOf(s'.jobs) && s'.jobs[id].disk == d && OnlyAsset(s, s', s.disks[d].asset, AssetErasing)
  }

  lemma OrderedEffect(s: Store, d: Id, x: Id, id: Id, now: nat, found: Option<Id>)
    requires OneActive(s.approvals) && Orderable(s, d, x) && id !in s.jobs && FoundActive(s, s.disks[d].asset, found)
    ensures JobWaits(s, Order(s, d, s.approvals[x].standard, "op", id, now, found).store, d, id)
  {
    var standard := s.approvals[x].standard;
    OrderAccepted(s, d, standard, "op", id, now, found);
    OrderEffect(s, d, standard, "op", id, now, found);
    OrderedAsset(s, d);
  }

  /** Either way the asset is erasing afterwards. */
  lemma OrderedAsset(s: Store, d: Id)
    requires d in s.disks && s.disks[d].asset in s.assets
    requires s.assets[s.disks[d].asset].status == AssetErasing || Begins(s, d)
    ensures var asset := s.disks[d].asset; var erasing := s.assets[asset := s.assets[asset].(status := AssetErasing)];
            (if Begins(s, d) then erasing else s.assets) == erasing
  {
    var a := s.assets[s.disks[d].asset];
    if !Begins(s, d) {
      assert a.(status := AssetErasing) == a;
    }
  }

  lemma JobOrdered(t: Trace, d: Id, x: Id) returns (t': Trace, id: Id)
    requires t.Legal() && Inv(t.Last()) && Orderable(t.Last().store, d, x)
    ensures Longer(t, t') && JobWaits(t.Last().store, t'.Last().store, d, id)
  {
    var s := t.Last().store;
    var now := t.Last().now;
    id := FreshName(s.jobs.Keys);
    var found := ServiceCalls.SomeFound(s, s.disks[d].asset);
    OrderedEffect(s, d, x, id, now, found);
    t' := GoCall(t, CallOrder(d, s.approvals[x].standard, "op", id, now, found));
  }

  lemma DiskWiped(t: Trace, d: Id, x: Id) returns (t': Trace, certNo: string)
    requires t.Legal() && Inv(t.Last()) && Orderable(t.Last().store, d, x)
    ensures Longer(t, t') && WipedBy(t.Last().store, t'.Last().store, d, t.Last().store.disks[d].asset, certNo)
  {
    var id, inst, g;
    t', id := JobOrdered(t, d, x);
    var s1 := t'.Last().store;
    t', inst := Restarted(t');
    t', g := GetsRun(t', inst, id);
    var s2, r := t'.Last().store, t'.Last().runs[g];
    ReadyToWipe(t.Last().store, s1, s2, r, d, id);
    t', certNo := RunWipes(t', g, r);
    WipedAfterOrder(t.Last().store, s1, s2, t'.Last().store, r, d, id, certNo);
  }

  lemma ReadyToWipe(s: Store, s1: Store, s2: Store, r: Runner, d: Id, id: Id)
    requires JobWaits(s, s1, d, id) && RunOf(s1, r, id) && OnlyDisks(s1, s2, s1.disks)
    ensures r.jobRow.disk == d && r.diskRow.asset == s.disks[d].asset
    ensures r.diskRow.asset in s2.assets && s2.assets[r.diskRow.asset].status == AssetErasing && r.(pc := Claimed) == r
  {}

  lemma WipedAfterOrder(s: Store, s1: Store, s2: Store, s': Store, r: Runner, d: Id, id: Id, certNo: string)
    requires JobWaits(s, s1, d, id) && OnlyDisks(s1, s2, s1.disks)
    requires WipedBy(s2, s', d, s.disks[d].asset, certNo)
    ensures WipedBy(s, s', d, s.disks[d].asset, certNo)
  {}

  // ---- all disks of an asset, one after the other ----

  function ToWipe(s: Store, asset: Id): (ds: set<Id>)
    ensures ds <= s.disks.Keys
  {
    set d | d in s.disks && s.disks[d].asset == asset && s.disks[d].status != DiskVerified
  }

  /** The asset's disks are pulled, or some of them have failed or are verified already; none is stuck in a run. */
  ghost predicate Ripe(s: Store, asset: Id) {
    && asset in s.assets && ToWipe(s, asset) != {}
    && (s.assets[asset].status == AssetDiskPulled || s.assets[asset].status == AssetErasing)
    && forall d :: d in ToWipe(s, asset) ==>
         s.disks[d].status == DiskPulled || (s.disks[d].status == DiskFailed && s.assets[asset].status == AssetErasing)
  }

  ghost predicate HasCertificate(certs: map<string, Certificate>, d: Id) {
    exists certNo :: certNo in certs && certs[certNo].disk == d
  }

  /** All disks of the asset are verified, and the ones that were not before have a new certificate. */
  ghost predicate AllWiped(s: Store, s': Store, asset: Id) {
    && asset in s.assets && s'.assets == s.assets[asset := s.assets[asset].(status := AssetErasureDone)]
    && ToWipe(s', asset) == {} && s'.disks.Keys == s.disks.Keys
    && (forall d :: d in s.disks && d !in ToWipe(s, asset) ==> s'.disks[d] == s.disks[d])
    && (forall d :: d in ToWipe(s, asset) ==> s'.disks[d] == s.disks[d].(status := DiskVerified))
    && (forall d :: d in ToWipe(s, asset) ==> HasCertificate(s'.certs, d)) && Extends(s.certs, s'.certs)
    && s'.approvals == s.approvals && s'.disposals == s.disposals
  }

  lemma OneLess(s: Store, s': Store, d: Id, asset: Id, certNo: string)
    requires Ripe(s, asset) && d in ToWipe(s, asset) && WipedBy(s, s', d, asset, certNo)
    ensures ToWipe(s', asset) == ToWipe(s, asset) - {d} && |ToWipe(s', asset)| < |ToWipe(s, asset)|
    ensures ToWipe(s', asset) == {} ==> AllWiped(s, s', asset)
    ensures ToWipe(s', asset) != {} ==> Ripe(s', asset)
  {
    assert ToWipe(s', asset) == ToWipe(s, asset) - {d};
    if ToWipe(s', asset) == {} {
      assert HasCertificate(s'.certs, d);
      assert forall e :: e in s'.disks && s'.disks[e].asset == asset ==> e !in ToWipe(s', asset);
      assert AllDisksDone(s', asset);
    } else {
      var e :| e in ToWipe(s', asset);
      assert e != d && s'.disks[e] == s.disks[e];
      assert !AllDisksDone(s', asset);
    }
  }

  lemma MoreWiped(s: Store, m: Store, s': Store, d: Id, asset: Id, certNo: string)
    requires d in ToWipe(s, asset) && WipedBy(s, m, d, asset, certNo) && ToWipe(m, asset) == ToWipe(s, asset) - {d}
    requires AllWiped(m, s', asset)
    ensures AllWiped(s, s', asset)
  {
    assert certNo in s'.certs && s'.certs[certNo].disk == d;
    assert HasCertificate(s'.certs, d);
    forall e | e in s.disks && e !in ToWipe(s, asset) ensures s'.disks[e] == s.disks[e] {
      assert e != d && m.disks[e] == s.disks[e] && e !in ToWipe(m, asset);
    }
    forall e | e in ToWipe(s, asset) ensures s'.disks[e] == s.disks[e].(status := DiskVerified) {
      assert e != d ==> m.disks[e] == s.disks[e];
    }
  }

  lemma {:induction false} AssetWiped(t: Trace, asset: Id, x: Id) returns (t': Trace)
    requires t.Legal() && Inv(t.Last()) && Ripe(t.Last().store, asset)
    requires ApprovedIs(t.Last().store, asset, x) && t.Last().store.approvals[x].standard in STANDARDS
    ensures Longer(t, t') && AllWiped(t.Last().store, t'.Last().store, asset)
    decreases |ToWipe(t.Last().store, asset)|
  {
    var s := t.Last().store;
    var d :| d in ToWipe(s, asset);
    var certNo;
    t', certNo := DiskWiped(t, d, x);
    var m := t'.Last().store;
    OneLess(s, m, d, asset, certNo);
    if ToWipe(m, asset) != {} {
      t' := AssetWiped(t', asset, x);
      MoreWiped(s, m, t'.Last().store, d, asset, certNo);
    }
  }

  // ---- disposal, and the way there from registration ----

  /** The asset is disposed by this route, and its other rows are as they were. */
  ghost predicate DisposedBy(s: Store, s': Store, asset: Id, d: Disposal) {
    && asset in s.assets && s'.assets == s.assets[asset := s.assets[asset].(status := AssetDisposed)]
    && s'.disposals == s.disposals[asset := d]
    && s'.disks == s.disks && s'.certs == s.certs && s'.approvals == s.approvals
  }

  lemma SignedEffect(s: Store, asset: Id, x: Id, receiver: string, operator: string, found: Option<Id>)
    requires OneActive(s.approvals) && Disposals(s.assets, s.disposals) && FoundActive(s, asset, found)
    requires asset in s.assets && s.assets[asset].status == AssetErasureDone && ApprovedIs(s, asset, x)
    requires IsRoute(s.approvals[x].route) && receiver != "" && operator != ""
    ensures var route := s.approvals[x].route;
            DisposedBy(s, Confirm(s, asset, route, receiver, operator, found).store, asset, Disposal(route, receiver, operator))
  {
    ConfirmAccepted(s, asset, s.approvals[x].route, receiver, operator, found);
    ConfirmEffect(s, asset, s.approvals[x].route, receiver, operator, found);
  }

  lemma Signed(t: Trace, asset: Id, x: Id, receiver: string, operator: string) returns (t': Trace)
    requires t.Legal() && Inv(t.Last()) && receiver != "" && operator != ""
    requires var s := t.Last().store; asset in s.assets && s.assets[asset].status == AssetErasureDone && ApprovedIs(s, asset, x)
    requires IsRoute(t.Last().store.approvals[x].route)
    ensures Longer(t, t')
    ensures DisposedBy(t.Last().store, t'.Last().store, asset, Disposal(t.Last().store.approvals[x].route, receiver, operator))
  {
    var s := t.Last().store;
    var found := ServiceCalls.SomeFound(s, asset);
    SignedEffect(s, asset, x, receiver, operator, found);
    t' := GoCall(t, CallConfirm(asset, s.approvals[x].route, receiver, operator, found));
  }

  ghost predicate WipedDisk(s: Store, s': Store, d: Id) {
    && d in s.disks && d in s'.disks && s'.disks[d] == s.disks[d].(status := DiskVerified) && HasCertificate(s'.certs, d)
  }

  /** Disposed by the approved route, every disk verified, and every disk that was still to be wiped newly certified. */
  ghost predicate Done(s: Store, s': Store, asset: Id, d: Disposal) {
    && asset in s.assets && asset in s'.assets && s'.assets[asset] == s.assets[asset].(status := AssetDisposed)
    && asset in s'.disposals && s'.disposals[asset] == d
    && ToWipe(s', asset) == {} && forall e :: e in ToWipe(s, asset) ==> WipedDisk(s, s', e)
  }

  /**
   * From every reachable state an asset whose disks have been pulled, failed or are verified can be brought to its end:
   * the system can go on so that every disk is wiped by the approved standard and certified, the last run takes the
   * asset to erasure verified, and the disposal by the approved route is signed.
   */
  lemma PulledAssetCanBeDisposed(t: Trace, n: nat, asset: Id, x: Id, receiver: string, operator: string) returns (c: Trace)
    requires t.Valid() && n < |t.states| && Ripe(t.states[n].store, asset) && ApprovedIs(t.states[n].store, asset, x)
    requires receiver != "" && operator != ""
    ensures c.Legal() && c.states[0] == t.states[n]
    ensures Done(t.states[n].store, c.Last().store, asset, Disposal(t.states[n].store.approvals[x].route, receiver, operator))
  {
    EveryStateKept(t, n);
    RequestsAreProper(t, n);
    c := AssetFinished(Here(t.states[n]), asset, x, receiver, operator);
  }

  lemma AssetFinished(t: Trace, asset: Id, x: Id, receiver: string, operator: string) returns (t': Trace)
    requires t.Legal() && Inv(t.Last()) && Proper(t.Last().store.approvals)
    requires Ripe(t.Last().store, asset) && ApprovedIs(t.Last().store, asset, x) && receiver != "" && operator != ""
    ensures Longer(t, t')
    ensures Done(t.Last().store, t'.Last().store, asset, Disposal(t.Last().store.approvals[x].route, receiver, operator))
  {
    t' := AssetWiped(t, asset, x);
    t' := Signed(t', asset, x, receiver, operator);
  }

  // registration to pull

  lemma RegisteredEffect(s: Store, tag: string, owner: string, operator: string, id: Id)
    requires tag != "" && tag !in s.tags && operator != ""
    ensures var s' := Register(s, tag, owner, operator, id).store;
            && s'.assets == s.assets[id := Asset(tag, owner, AssetPending, operator)]
            && s'.approvals == s.approvals && s'.disks == s.disks
  {
    RegisterEffect(s, tag, owner, operator, id);
  }

  /** A new asset, pending, without requests and disks. */
  ghost predicate New(s: Store, asset: Id, a: Asset) {
    && asset in s.assets && s.assets[asset] == a && a.status == AssetPending
    && (forall x :: x in s.approvals ==> s.approvals[x].asset != asset) && (forall d :: d in s.disks ==> s.disks[d].asset != asset)
  }

  lemma Registers(t: Trace, tag: string, owner: string, operator: string) returns (t': Trace, asset: Id)
    requires t.Legal() && Inv(t.Last()) && tag != "" && tag !in t.Last().store.tags && operator != ""
    ensures Longer(t, t') && New(t'.Last().store, asset, Asset(tag, owner, AssetPending, operator)) && asset !in t.Last().store.assets
    ensures Proper(t.Last().store.approvals) ==> Proper(t'.Last().store.approvals)
  {
    var s := t.Last().store;
    asset := FreshName(s.assets.Keys);
    RegisteredEffect(s, tag, owner, operator, asset);
    UnknownAsset(s, asset);
    t' := GoCall(t, CallRegister(tag, owner, operator, asset));
  }

  lemma UnknownAsset(s: Store, asset: Id)
    requires Sound(s) && asset !in s.assets
    ensures forall x :: x in s.approvals ==> s.approvals[x].asset != asset
    ensures forall d :: d in s.disks ==> s.disks[d].asset != asset
  {}

  /** What the owner asked for, and who is to decide. */
  datatype Terms = Terms(standard: string, route: string, applicant: string, reviewer: string)

  predicate Sensible(terms: Terms, owner: string) {
    && terms.standard in STANDARDS && IsRoute(terms.route) && terms.applicant != "" && (owner == "" || owner == terms.applicant)
    && terms.reviewer != "" && terms.reviewer != terms.applicant
  }

  /** The asset is pending and its one request, by these terms, has been approved. */
  ghost predicate Cleared(s: Store, asset: Id, a: Asset, x: Id, terms: Terms) {
    && asset in s.assets && s.assets[asset] == a && a.status == AssetPending && ApprovedIs(s, asset, x)
    && s.approvals[x].standard == terms.standard && s.approvals[x].route == terms.route
    && s.approvals[x].reviewer == terms.reviewer && (forall d :: d in s.disks ==> s.disks[d].asset != asset)
  }

  lemma SubmittedEffect(s: Store, asset: Id, a: Asset, terms: Terms, x: Id)
    requires New(s, asset, a) && Sensible(terms, a.owner) && x !in s.approvals
    ensures IsNextVersion(s, asset, 1)
    ensures var s' := Submit(s, asset, terms.standard, terms.route, terms.applicant, x, 1).store;
            s'.approvals == s.approvals[x := Approval(asset, terms.standard, terms.route, terms.applicant, ApprovalPending, "", "", 1)]
            && s'.assets == s.assets && s'.disks == s.disks
  {
    SubmitEffect(s, asset, terms.standard, terms.route, terms.applicant, x, 1);
  }

  lemma ApprovedEffect(s: Store, asset: Id, a: Asset, terms: Terms, x: Id)
    requires Asked(s, asset, a, x, terms) && Sensible(terms, a.owner) && Proper(s.approvals)
    ensures var s' := Review(s, x, terms.reviewer, true, "").store; Cleared(s', asset, a, x, terms) && Proper(s'.approvals)
  {
    ReviewEffect(s, x, terms.reviewer, true, "");
  }

  /** The asset is pending and its one request, by these terms, waits for a review. */
  ghost predicate Asked(s: Store, asset: Id, a: Asset, x: Id, terms: Terms) {
    && x in s.approvals && asset in s.assets && s.assets[asset] == a && a.status == AssetPending
    && s.approvals[x] == Approval(asset, terms.standard, terms.route, terms.applicant, ApprovalPending, "", "", 1)
    && forall d :: d in s.disks ==> s.disks[d].asset != asset
  }

  lemma Submits(t: Trace, asset: Id, a: Asset, terms: Terms) returns (t': Trace, x: Id)
    requires t.Legal() && Inv(t.Last()) && New(t.Last().store, asset, a) && Sensible(terms, a.owner)
    requires Proper(t.Last().store.approvals)
    ensures Longer(t, t') && Asked(t'.Last().store, asset, a, x, terms) && Proper(t'.Last().store.approvals)
  {
    var s := t.Last().store;
    x := FreshName(s.approvals.Keys);
    AskedEffect(s, asset, a, terms, x);
    t' := GoCall(t, CallSubmit(asset, terms.standard, terms.route, terms.applicant, x, 1));
  }

  lemma AskedEffect(s: Store, asset: Id, a: Asset, terms: Terms, x: Id)
    requires New(s, asset, a) && Sensible(terms, a.owner) && x !in s.approvals && Proper(s.approvals)
    ensures IsNextVersion(s, asset, 1)
    ensures var s' := Submit(s, asset, terms.standard, terms.route, terms.applicant, x, 1).store;
            Asked(s', asset, a, x, terms) && Proper(s'.approvals)
  {
    SubmittedEffect(s, asset, a, terms, x);
  }

  lemma Clears(t: Trace, asset: Id, a: Asset, terms: Terms) returns (t': Trace, x: Id)
    requires t.Legal() && Inv(t.Last()) && New(t.Last().store, asset, a) && Sensible(terms, a.owner)
    requires Proper(t.Last().store.approvals)
    ensures Longer(t, t') && Cleared(t'.Last().store, asset, a, x, terms) && Proper(t'.Last().store.approvals)
  {
    t', x := Submits(t, asset, a, terms);
    ApprovedEffect(t'.Last().store, asset, a, terms, x);
    t' := GoCall(t', CallReview(x, terms.reviewer, true, ""));
  }

  lemma {:induction false} FreshNames(used: set<string>, n: nat) returns (names: seq<string>)
    ensures |names| == n && (forall i :: 0 <= i < n ==> names[i] !in used)
    ensures forall i, j :: 0 <= i < j < n ==> names[i] != names[j]
    decreases n
  {
    names := [];
    if n > 0 {
      names := FreshNames(used, n - 1);
      var name := FreshName(used + set i | 0 <= i < n - 1 :: names[i]);
      names := names + [name];
    }
  }

  /** The disks `ids` are pulled, as given, and they are the disks of the asset. */
  ghost predicate PulledAs(s: Store, asset: Id, operator: string, inputs: seq<DiskInput>, ids: seq<Id>)
    requires |ids| == |inputs|
  {
    && (forall i :: 0 <= i < |ids| ==> ids[i] in ToWipe(s, asset)
                                       && s.disks[ids[i]] == Disk(asset, inputs[i].serial, inputs[i].path, DiskPulled, operator))
    && (forall i, j :: 0 <= i < j < |ids| ==> ids[i] != ids[j])
    && forall d :: d in ToWipe(s, asset) ==> d in ids
  }

  lemma PulledEffect(s: Store, asset: Id, a: Asset, x: Id, terms: Terms, operator: string, inputs: seq<DiskInput>, ids: seq<Id>,
                     found: Option<Id>)
    requires OneActive(s.approvals) && Cleared(s, asset, a, x, terms) && FoundActive(s, asset, found) && operator != "" && |inputs| > 0
    requires forall i :: 0 <= i < |inputs| ==> Complete(inputs[i])
    requires |ids| == |inputs| && FreshIds(s, ids)
    ensures var s' := Pull(s, asset, operator, inputs, ids, found).store;
            && asset in s'.assets && s'.assets[asset] == a.(status := AssetDiskPulled)
            && PulledAs(s', asset, operator, inputs, ids) && Ripe(s', asset) && s'.approvals == s.approvals
  {
    PullAccepted(s, asset, operator, inputs, ids, found);
    PullEffect(s, asset, operator, inputs, ids, found);
    PulledDisks(s, Pull(s, asset, operator, inputs, ids, found).store, asset, operator, inputs, ids);
  }

  lemma PulledDisks(s: Store, s': Store, asset: Id, operator: string, inputs: seq<DiskInput>, ids: seq<Id>)
    requires |ids| == |inputs| > 0 && FreshIds(s, ids) && DisksRecorded(s.disks, s'.disks, asset, operator, inputs, ids, |inputs|)
    requires (forall d :: d in s.disks ==> s.disks[d].asset != asset)
    requires asset in s'.assets && s'.assets[asset].status == AssetDiskPulled
    ensures PulledAs(s', asset, operator, inputs, ids) && Ripe(s', asset)
  {
    assert ids[..|inputs|] == ids;
    assert ids[0] in ToWipe(s', asset);
  }

  lemma Pulls(t: Trace, asset: Id, a: Asset, x: Id, terms: Terms, operator: string, inputs: seq<DiskInput>)
    returns (t': Trace, ids: seq<Id>)
    requires t.Legal() && Inv(t.Last()) && Cleared(t.Last().store, asset, a, x, terms) && operator != "" && |inputs| > 0
    requires forall i :: 0 <= i < |inputs| ==> Complete(inputs[i])
    ensures Longer(t, t') && |ids| == |inputs|
    ensures var s' := t'.Last().store;
            && asset in s'.assets && s'.assets[asset] == a.(status := AssetDiskPulled)
            && PulledAs(s', asset, operator, inputs, ids) && Ripe(s', asset) && s'.approvals == t.Last().store.approvals
  {
    var s := t.Last().store;
    ids := FreshNames(s.disks.Keys, |inputs|);
    var found := ServiceCalls.SomeFound(s, asset);
    PulledEffect(s, asset, a, x, terms, operator, inputs, ids, found);
    t' := GoCall(t, CallPull(asset, operator, inputs, ids, found));
  }

  /** The whole life of an asset is in the store: its row, its disks, a certificate for each, and its disposal. */
  ghost predicate Completed(s: Store, asset: Id, a: Asset, terms: Terms, receiver: string, operator: string,
                            inputs: seq<DiskInput>, ids: seq<Id>)
    requires |ids| == |inputs|
  {
    && asset in s.assets && s.assets[asset] == a.(status := AssetDisposed)
    && asset in s.disposals && s.disposals[asset] == Disposal(terms.route, receiver, operator)
    && forall i :: 0 <= i < |ids| ==>
         && ids[i] in s.disks && s.disks[ids[i]] == Disk(asset, inputs[i].serial, inputs[i].path, DiskVerified, operator)
         && HasCertificate(s.certs, ids[i])
  }

  /**
   * Nothing stands in the way of a new asset. From every reachable state, for every tag not in use, every owner, built-in
   * standard and route, every applicant the owner allows and every other reviewer, and any number of disks, the system
   * can go on so that the asset is registered, approved, pulled, wiped disk by disk, certified and disposed as asked.
   */
  lemma NewAssetCanBeDisposed(t: Trace, n: nat, a: Asset, terms: Terms, receiver: string, inputs: seq<DiskInput>)
    returns (c: Trace, asset: Id, ids: seq<Id>)
    requires t.Valid() && n < |t.states| && forall b :: b in t.states[n].store.assets ==> t.states[n].store.assets[b].tag != a.tag
    requires a.tag != "" && a.status == AssetPending && a.registeredBy != "" && Sensible(terms, a.owner) && receiver != ""
    requires |inputs| > 0 && forall i :: 0 <= i < |inputs| ==> inputs[i].serial != "" && inputs[i].path != ""
    ensures c.Legal() && c.states[0] == t.states[n] && asset !in t.states[n].store.assets && |ids| == |inputs|
    ensures Completed(c.Last().store, asset, a, terms, receiver, a.registeredBy, inputs, ids)
  {
    EveryStateKept(t, n);
    RequestsAreProper(t, n);
    AlwaysTagged(t, n);
    TagIsFree(t.states[n].store, a.tag);
    c, asset, ids := NewAssetFinished(Here(t.states[n]), a, terms, receiver, inputs);
  }

  lemma TagIsFree(s: Store, tag: string)
    requires Tagged(s) && forall b :: b in s.assets ==> s.assets[b].tag != tag
    ensures tag !in s.tags
  {}

  lemma NewAssetFinished(t: Trace, a: Asset, terms: Terms, receiver: string, inputs: seq<DiskInput>)
    returns (t': Trace, asset: Id, ids: seq<Id>)
    requires t.Legal() && Inv(t.Last()) && Proper(t.Last().store.approvals) && a.tag !in t.Last().store.tags
    requires a.tag != "" && a.status == AssetPending && a.registeredBy != "" && Sensible(terms, a.owner) && receiver != ""
    requires |inputs| > 0 && forall i :: 0 <= i < |inputs| ==> Complete(inputs[i])
    ensures Longer(t, t') && asset !in t.Last().store.assets && |ids| == |inputs|
    ensures Completed(t'.Last().store, asset, a, terms, receiver, a.registeredBy, inputs, ids)
  {
    var x;
    t', asset := Registers(t, a.tag, a.owner, a.registeredBy);
    t', x := Clears(t', asset, a, terms);
    t', ids := Pulls(t', asset, a, x, terms, a.registeredBy, inputs);
    var s := t'.Last().store;
    t' := AssetFinished(t', asset, x, receiver, a.registeredBy);
    FinishedIsCompleted(s, t'.Last().store, asset, a, terms, receiver, inputs, ids);
  }

  lemma FinishedIsCompleted(s: Store, s': Store, asset: Id, a: Asset, terms: Terms, receiver: string,
                            inputs: seq<DiskInput>, ids: seq<Id>)
    requires |ids| == |inputs| && PulledAs(s, asset, a.registeredBy, inputs, ids)
    requires asset in s.assets && s.assets[asset] == a.(status := AssetDiskPulled)
    requires Done(s, s', asset, Disposal(terms.route, receiver, a.registeredBy))
    ensures Completed(s', asset, a, terms, receiver, a.registeredBy, inputs, ids)
  {
    forall i | 0 <= i < |ids|
      ensures ids[i] in s'.disks && s'.disks[ids[i]] == Disk(asset, inputs[i].serial, inputs[i].path, DiskVerified, a.registeredBy)
      ensures HasCertificate(s'.certs, ids[i])
    {
      assert WipedDisk(s, s', ids[i]);
    }
  }
}
