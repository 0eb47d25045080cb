/** How the system can go on from a given state: a run can come to its end, a slot can become free, a disk be revived. */
module Continuations {
  import opened Domain
  import opened StoreModel
  import opened History
  import opened ServiceRules
  import opened RunnerModel
  import opened Finality
  import opened Upkeep
  import opened SystemModel
  import opened Scrapping

  /** `t'` goes on from the last state of `t`; the invariant still holds. */
  ghost predicate Longer(t: Trace, t': Trace) {
    t.Legal() && t'.Legal() && t'.states[0] == t.states[0] && Inv(t'.Last())
  }

  lemma GoOn(t: Trace, event: Event, sys': System) returns (t': Trace)
    requires t.Legal() && Inv(t.Last()) && Next(t.Last(), event, sys')
    ensures Longer(t, t') && t'.Last() == sys'
  {
    Go(t, event, sys');
    NextKeepsInv(t.Last(), event, sys');
    t' := t.Then(event, sys');
  }

  lemma GoMove(t: Trace, g: nat, move: Move, s': Store, pc: Pc) returns (t': Trace)
    requires t.Legal() && Inv(t.Last()) && g in t.Last().runs && OnTime(move, t.Last().now)
    requires Step(t.Last().store, t.Last().runs[g], move, s', pc)
    ensures Longer(t, t') && t'.Last() == Moved(t.Last(), g, s', pc)
  {
    t' := GoOn(t, MoveRun(g, move, pc), Moved(t.Last(), g, s', pc));
  }

  // ---- a run with its disk update ahead performs it ----

  lemma KnownStandard(s: Store, r: Runner)
    requires Final(s) && Stands(s, r)
    ensures Knows(s, r) && r.jobRow.standard in STANDARDS
  {}

  const MISMATCH: Run := Run(0, false, 0, Full, 0, 1, RunFailed)

  predicate UpdateNext(pc: Pc) {
    pc == Marked || pc == FailingDisk || pc.Saved?
  }

  /** One move before the update: the job is marked running, or a mismatch is found. */
  lemma ComesCloser(t: Trace, g: nat) returns (t': Trace)
    requires t.Legal() && Inv(t.Last()) && g in t.Last().runs
    requires t.Last().runs[g].pc == Claimed || t.Last().runs[g].pc == Working
    ensures Longer(t, t') && g in t'.Last().runs && UpdateNext(t'.Last().runs[g].pc)
    ensures t'.Last().runs[g].jobRow == t.Last().runs[g].jobRow
  {
    var sys, r := t.Last(), t.Last().runs[g];
    assert Stands(sys.store, r);
    KnownStandard(sys.store, r);
    if r.pc == Claimed {
      t' := GoMove(t, g, MarkRunning(sys.now), MarkJobRunning(sys.store, r.job, r.jobRow.attempt, sys.now).store, Marked);
    } else {
      t' := GoMove(t, g, MismatchFound(MISMATCH), CompleteJob(sys.store, r.job, JobFailed, MISMATCH).store, FailingDisk);
    }
  }

  lemma Unscrapped(s: Store, disk: Id, status: DiskStatus, actor: string)
    requires disk in s.disks && status != DiskScrapped
    ensures !IsScrapped(UpdateDiskStatus(s, disk, status, actor).store, disk)
  {}

  lemma UpdateStep(s: Store, r: Runner) returns (move: Move, s': Store, pc: Pc)
    requires Knows(s, r) && UpdateNext(r.pc)
    ensures Step(s, r, move, s', pc) && (forall now :: OnTime(move, now)) && !IsScrapped(s', r.jobRow.disk)
  {
    Unscrapped(s, r.jobRow.disk, DiskErasing, r.name);
    Unscrapped(s, r.jobRow.disk, DiskFailed, r.name);
    Unscrapped(s, r.jobRow.disk, DiskVerified, r.name);
    match r.pc
    case Marked => move, s', pc := MarkDisk, UpdateDiskStatus(s, r.jobRow.disk, DiskErasing, r.name).store, Working;
    case FailingDisk => move, s', pc := FailDisk, UpdateDiskStatus(s, r.jobRow.disk, DiskFailed, r.name).store, Gone;
    case Saved(bytes) =>
      move, s', pc := DiskVerifiedMove, UpdateDiskStatus(s, r.jobRow.disk, DiskVerified, r.name).store, DiskMarked(bytes);
  }

  lemma UpdatesNow(t: Trace, g: nat) returns (t': Trace)
    requires t.Legal() && Inv(t.Last()) && g in t.Last().runs && UpdateNext(t.Last().runs[g].pc)
    ensures Longer(t, t') && !IsScrapped(t'.Last().store, t.Last().runs[g].jobRow.disk)
  {
    var sys, r := t.Last(), t.Last().runs[g];
    assert Stands(sys.store, r);
    KnownStandard(sys.store, r);
    var move, s', pc := UpdateStep(sys.store, r);
    t' := GoMove(t, g, move, s', pc);
  }

  lemma RunRevives(t: Trace, g: nat) returns (t': Trace)
    requires t.Legal() && Inv(t.Last()) && g in t.Last().runs && UpdateAhead(t.Last().runs[g].pc)
    ensures Longer(t, t') && !IsScrapped(t'.Last().store, t.Last().runs[g].jobRow.disk)
  {
    if UpdateNext(t.Last().runs[g].pc) {
      t' := UpdatesNow(t, g);
    } else {
      t' := ComesCloser(t, g);
      t' := UpdatesNow(t', g);
    }
  }

  // ---- a run comes to its end ----

  function Rank(pc: Pc): nat {
    match pc
    case Gone => 0
    case Claimed => 1
    case Marked => 2
    case Working => 1
    case FailingDisk => 1
    case Saved(_) => 3
    case DiskMarked(_) => 2
    case Recorded(_) => 1
    case Certified => 2
    case Listed => 1
  }

  const STOPPED: Run := Run(0, false, 0, Full, 0, 0, RunInterrupted)
  const FAILED: Run := Run(0, false, 0, Full, 0, 0, RunFailed)

  lemma EndStep(s: Store, r: Runner) returns (move: Move, s': Store, pc: Pc)
    requires Knows(s, r) && r.jobRow.standard in STANDARDS && r.pc != Gone
    ensures Step(s, r, move, s', pc) && (pc != Gone ==> Rank(pc) < Rank(r.pc)) && forall now :: OnTime(move, now)
  {
    match r.pc
    case Claimed => move, s', pc := FailBefore(FAILED), CompleteJob(s, r.job, JobFailed, FAILED).store, Gone;
    case Marked => move, s', pc := MarkDisk, UpdateDiskStatus(s, r.jobRow.disk, DiskErasing, r.name).store, Working;
    case Working => move, s', pc := Interrupted(STOPPED), RecordRun(s, r.job, STOPPED).store, Gone;
    case FailingDisk => move, s', pc := FailDisk, UpdateDiskStatus(s, r.jobRow.disk, DiskFailed, r.name).store, Gone;
    case Saved(bytes) =>
      move, s', pc := DiskVerifiedMove, UpdateDiskStatus(s, r.jobRow.disk, DiskVerified, r.name).store, DiskMarked(bytes);
    case DiskMarked(bytes) =>
      var run := Run(0, false, 0, STANDARDS[r.jobRow.standard].mode, bytes, 0, RunVerified);
      move, s', pc := Record(run), CompleteJob(s, r.job, JobVerified, run).store, Recorded(bytes);
    case Recorded(_) => move, s', pc := CertificateFails, s, Gone;
    case Certified => move, s', pc := ListDisks, s, if AllDisksDone(s, r.diskRow.asset) then Listed else Gone;
    case Listed =>
      move, s', pc := AssetDone, TransitionAsset(s, r.diskRow.asset, AssetErasureDone, r.name, ErasureVerified).store, Gone;
  }

  /** Every run can come to its end and give back its slot. */
  lemma {:induction false} RunEnds(t: Trace, g: nat) returns (t': Trace)
    requires t.Legal() && Inv(t.Last()) && g in t.Last().runs
    ensures Longer(t, t') && t'.Last().checks == t.Last().checks
    ensures t'.Last().live == GivenBack(t.Last().live, t.Last().runs[g].inst)
    decreases Rank(t.Last().runs[g].pc)
  {
    var sys, r := t.Last(), t.Last().runs[g];
    assert Stands(sys.store, r);
    KnownStandard(sys.store, r);
    var move, s', pc := EndStep(sys.store, r);
    t' := GoMove(t, g, move, s', pc);
    if pc != Gone {
      t' := RunEnds(t', g);
    }
  }

  // ---- a slot becomes free ----

  lemma FreshNumber(used: set<nat>) returns (k: nat)
    ensures forall x :: x in used ==> x < k
  {
    if x :| x in used {
      var above := FreshNumber(used - {x});
      assert forall y :: y in used ==> y == x || y in used - {x};
      k := if above > x then above else x + 1;
    } else {
      k := 0;
    }
  }

  lemma OldestPending(s: Store, pending: set<Id>) returns (j: Id)
    requires pending != {} && pending <= s.jobs.Keys
    ensures j in pending && forall p :: p in pending ==> s.jobs[j].createdAt <= s.jobs[p].createdAt
  {
    var x :| x in pending;
    if pending == {x} {
      j := x;
    } else {
      j := OldestPending(s, pending - {x});
      j := if s.jobs[x].createdAt < s.jobs[j].createdAt then x else j;
    }
  }

  /** A claim always has an outcome. */
  lemma SomeClaim(s: Store, worker: string, staleAfter: nat, now: nat) returns (picked: Option<Id>, s': Store)
    ensures Acquired(s, worker, staleAfter, now, s', picked)
  {
    if o :| o in s.jobs && Orphan(s, o, worker, staleAfter, now) {
      picked, s' := Some(o), Claim(s, o, worker, now);
    } else {
      var pending := set p | p in s.jobs && s.jobs[p].status == JobPending;
      if pending == {} {
        picked, s' := None, s;
        assert forall j :: j in s.jobs ==> j !in pending;
      } else {
        var j := OldestPending(s, pending);
        picked, s' := Some(j), Claim(s, j, worker, now);
      }
    }
  }

  /** The scheduler finishes the claim it is making: it frees the slot, or starts a run in it. */
  lemma ClaimEnds(t: Trace, inst: string) returns (t': Trace, run: Option<nat>)
    requires t.Legal() && Inv(t.Last()) && inst in t.Last().live && t.Last().live[inst].claiming && !t.Last().live[inst].starting
    ensures Longer(t, t') && t'.Last().checks == t.Last().checks && inst in t'.Last().live
    ensures t'.Last().live[inst].workers == t.Last().live[inst].workers
    ensures run.None? ==> t'.Last().live[inst].busy + 1 == t.Last().live[inst].busy
    ensures run.Some? ==> run.value in t'.Last().runs && t'.Last().runs[run.value].inst == inst
                          && t'.Last().live[inst].busy == t.Last().live[inst].busy
  {
    var sys, i := t.Last(), t.Last().live[inst];
    var picked, s' := SomeClaim(sys.store, inst, sys.staleAfter, sys.now);
    if picked.None? {
      run := None;
      t' := ClaimsNothing(t, inst);
    } else {
      var g: nat;
      t', g := ClaimsJob(t, inst, picked.value);
      run := Some(g);
    }
  }

  ghost predicate NothingEligible(sys: System, inst: string) {
    Acquired(sys.store, inst, sys.staleAfter, sys.now, sys.store, None)
  }

  lemma ClaimsNothing(t: Trace, inst: string) returns (t': Trace)
    requires t.Legal() && Inv(t.Last()) && inst in t.Last().live && t.Last().live[inst].claiming && !t.Last().live[inst].starting
    requires NothingEligible(t.Last(), inst)
    ensures Longer(t, t') && t'.Last().checks == t.Last().checks && inst in t'.Last().live
    ensures t'.Last().live[inst].workers == t.Last().live[inst].workers
    ensures t'.Last().live[inst].busy + 1 == t.Last().live[inst].busy
  {
    ClaimHoldsSlot(t.Last(), inst);
    var sys := t.Last();
    var sys' := NothingClaimed(sys, inst);
    t' := GoOn(t, ClaimNone(inst), sys');
  }

  lemma ClaimHoldsSlot(sys: System, inst: string)
    requires Slots(sys.live, sys.runs, sys.checks) && inst in sys.live && sys.live[inst].claiming
    ensures sys.live[inst].busy > 0
  {
    assert SlotsCounted(sys.live[inst], InUse(sys.runs, sys.checks, inst));
  }

  lemma NothingClaimed(sys: System, inst: string) returns (sys': System)
    requires inst in sys.live && sys.live[inst].claiming && sys.live[inst].busy > 0 && !sys.live[inst].starting
    requires NothingEligible(sys, inst)
    ensures Next(sys, ClaimNone(inst), sys') && sys'.checks == sys.checks && inst in sys'.live
    ensures sys'.live[inst].workers == sys.live[inst].workers && sys'.live[inst].busy + 1 == sys.live[inst].busy
  {
    sys' := With(sys, inst, sys.live[inst].(busy := sys.live[inst].busy - 1, claiming := false));
  }

  /** The instance is making a claim that may pick this job. */
  ghost predicate Claimable(sys: System, inst: string, job: Id) {
    && inst in sys.live && sys.live[inst].claiming && (sys.live[inst].starting ==> sys.live.Keys == {inst})
    && job in sys.store.jobs
    && Acquired(sys.store, inst, StaleFor(sys, sys.live[inst]), sys.now, Claim(sys.store, job, inst, sys.now), Some(job))
  }

  /** The instance claims this job and starts a run of it. */
  function Claiming(sys: System, inst: string, job: Id, g: nat): System
    requires inst in sys.live && job in sys.store.jobs && sys.store.jobs[job].disk in sys.store.disks
  {
    var s' := Claim(sys.store, job, inst, sys.now);
    With(sys, inst, sys.live[inst].(claiming := false)).(store := s', runs := sys.runs[g := NewRun(s', inst, "", job)])
  }

  lemma ClaimsJob(t: Trace, inst: string, job: Id) returns (t': Trace, g: nat)
    requires t.Legal() && Inv(t.Last()) && Claimable(t.Last(), inst, job)
    ensures t.Last().store.jobs[job].disk in t.Last().store.disks && g !in t.Last().runs
    ensures Longer(t, t') && t'.Last() == Claiming(t.Last(), inst, job, g)
  {
    var sys := t.Last();
    g := FreshNumber(sys.runs.Keys);
    JobHasDisk(sys.store, job, inst, sys.now);
    t' := GoOn(t, ClaimJob(inst, "", job, g), Claiming(sys, inst, job, g));
  }

  lemma JobHasDisk(s: Store, j: Id, worker: string, now: nat)
    requires JobsKnown(s.jobs, s.disks) && j in s.jobs
    ensures var s' := Claim(s, j, worker, now); j in s'.jobs && s'.jobs[j].disk in s'.disks
  {}

  /** Where a slot is in use, one becomes free. */
  lemma SlotFrees(t: Trace, v: nat) returns (t': Trace)
    requires t.Legal() && Inv(t.Last()) && v in t.Last().checks && t.Last().checks[v].pc == Waiting
    ensures Longer(t, t') && v in t'.Last().checks && t'.Last().checks[v] == t.Last().checks[v]
    ensures var inst := t.Last().checks[v].inst; inst in t'.Last().live && t'.Last().live[inst].busy < t'.Last().live[inst].workers
  {
    var sys, inst := t.Last(), t.Last().checks[v].inst;
    var i := sys.live[inst];
    assert SlotsCounted(i, InUse(sys.runs, sys.checks, inst));
    if i.busy < i.workers {
      t' := t;
    } else {
      t' := SlotGivenBack(t, inst);
    }
  }

  /** The instance has a free slot, and re-verifications that wait still do. */
  ghost predicate Freed(t: Trace, t': Trace, inst: string) {
    && Longer(t, t') && inst in t'.Last().live && t'.Last().live[inst].busy < t'.Last().live[inst].workers
    && forall v :: v in t.Last().checks && t.Last().checks[v].pc == Waiting ==>
         v in t'.Last().checks && t'.Last().checks[v] == t.Last().checks[v]
  }

  lemma SlotGivenBack(t: Trace, inst: string) returns (t': Trace)
    requires t.Legal() && Inv(t.Last()) && inst in t.Last().live && t.Last().live[inst].busy == t.Last().live[inst].workers
    ensures Freed(t, t', inst)
  {
    var w, g := SlotHolder(t.Last(), inst);
    if w.Some? {
      t' := FreedByCheck(t, w.value);
    } else if g.Some? {
      t' := FreedByRun(t, g.value);
    } else {
      t' := SchedulerFrees(t, inst);
    }
  }

  lemma FreedByCheck(t: Trace, w: nat) returns (t': Trace)
    requires t.Legal() && Inv(t.Last()) && w in t.Last().checks && t.Last().checks[w].pc != Waiting
    requires var inst := t.Last().checks[w].inst; inst in t.Last().live && t.Last().live[inst].busy == t.Last().live[inst].workers > 0
    ensures Freed(t, t', t.Last().checks[w].inst)
  {
    GivenBackFrees(t.Last().live, t.Last().checks[w].inst);
    OthersWait(t.Last().checks, w);
    t' := CheckEnds(t, w);
  }

  lemma OthersWait(checks: map<nat, Check>, w: nat)
    requires w in checks && checks[w].pc != Waiting
    ensures forall v :: v in checks && checks[v].pc == Waiting ==> v in checks - {w} && (checks - {w})[v] == checks[v]
  {}

  lemma FreedByRun(t: Trace, g: nat) returns (t': Trace)
    requires t.Legal() && Inv(t.Last()) && g in t.Last().runs
    requires var inst := t.Last().runs[g].inst; inst in t.Last().live && t.Last().live[inst].busy == t.Last().live[inst].workers > 0
    ensures Freed(t, t', t.Last().runs[g].inst)
  {
    GivenBackFrees(t.Last().live, t.Last().runs[g].inst);
    t' := RunEnds(t, g);
  }

  lemma GivenBackFrees(live: map<string, Instance>, inst: string)
    requires inst in live && live[inst].busy == live[inst].workers > 0
    ensures inst in GivenBack(live, inst) && GivenBack(live, inst)[inst].busy < GivenBack(live, inst)[inst].workers
  {}

  /** Who holds a slot of an instance: a re-verification, a run, or else its scheduler. */
  lemma SlotHolder(sys: System, inst: string) returns (w: Option<nat>, g: Option<nat>)
    requires Slots(sys.live, sys.runs, sys.checks) && inst in sys.live && sys.live[inst].busy == sys.live[inst].workers
    ensures sys.live[inst].busy > 0
    ensures w.Some? ==> w.value in sys.checks && sys.checks[w.value].inst == inst && sys.checks[w.value].pc != Waiting
    ensures g.Some? ==> g.value in sys.runs && sys.runs[g.value].inst == inst
    ensures w == None && g == None ==> sys.live[inst].claiming
  {
    assert SlotsCounted(sys.live[inst], InUse(sys.runs, sys.checks, inst));
    w, g := None, None;
    if x :| x in ChecksOn(sys.checks, inst) {
      w := Some(x);
    } else if x :| x in RunsOn(sys.runs, inst) {
      g := Some(x);
    } else {
      assert ChecksOn(sys.checks, inst) == {} && RunsOn(sys.runs, inst) == {};
    }
  }

  lemma CheckEnds(t: Trace, w: nat) returns (t': Trace)
    requires t.Legal() && Inv(t.Last()) && w in t.Last().checks && t.Last().checks[w].pc != Waiting
    ensures Longer(t, t') && t'.Last().checks == t.Last().checks - {w}
    ensures t'.Last().live == GivenBack(t.Last().live, t.Last().checks[w].inst)
  {
    var sys := t.Last();
    t' := GoOn(t, CheckLogs(w), Dropped(sys, w).(store := AppendAudit(sys.store, CheckRow(sys.checks[w])).store));
  }

  lemma SchedulerFrees(t: Trace, inst: string) returns (t': Trace)
    requires t.Legal() && Inv(t.Last()) && inst in t.Last().live && t.Last().live[inst].claiming
    ensures Longer(t, t') && t'.Last().checks == t.Last().checks
    ensures inst in t'.Last().live && t'.Last().live[inst].busy < t'.Last().live[inst].workers
  {
    var sys := t.Last();
    t' := GoOn(t, EndGrace(inst), With(sys, inst, sys.live[inst].(starting := false)));
    var run;
    t', run := ClaimEnds(t', inst);
    var i := t'.Last().live[inst];
    assert SlotsCounted(i, InUse(t'.Last().runs, t'.Last().checks, inst));
    if run.Some? {
      assert run.value in RunsOn(t'.Last().runs, inst);
      t' := RunEnds(t', run.value);
    }
  }

  // ---- re-verifications and orphaned jobs ----

  /** A re-verification that reads the device can fail its disk, whatever has happened to the disk meanwhile. */
  lemma CheckRevives(t: Trace, v: nat) returns (t': Trace)
    requires t.Legal() && Inv(t.Last()) && v in t.Last().checks && t.Last().checks[v].pc == Reading
    ensures Longer(t, t') && !IsScrapped(t'.Last().store, t.Last().checks[v].disk)
  {
    var sys, c := t.Last(), t.Last().checks[v];
    Unscrapped(sys.store, c.disk, DiskFailed, c.operator);
    t' := GoOn(t, CheckFails(v), sys.(store := UpdateDiskStatus(sys.store, c.disk, DiskFailed, c.operator).store,
                                      checks := sys.checks[v := c.(pc := Logging)]));
  }

  lemma WaitingCheckRevives(t: Trace, v: nat) returns (t': Trace)
    requires t.Legal() && Inv(t.Last()) && v in t.Last().checks && t.Last().checks[v].pc == Waiting
    ensures Longer(t, t') && !IsScrapped(t'.Last().store, t.Last().checks[v].disk)
  {
    t' := SlotFrees(t, v);
    t' := CheckStarts(t', v);
    t' := CheckRevives(t', v);
  }

  lemma CheckStarts(t: Trace, v: nat) returns (t': Trace)
    requires t.Legal() && Inv(t.Last()) && v in t.Last().checks && t.Last().checks[v].pc == Waiting
    requires var inst := t.Last().checks[v].inst; inst in t.Last().live && t.Last().live[inst].busy < t.Last().live[inst].workers
    ensures Longer(t, t') && v in t'.Last().checks && t'.Last().checks[v] == t.Last().checks[v].(pc := Reading)
  {
    var sys' := SlotTaken(t.Last(), v);
    t' := GoOn(t, CheckSlot(v), sys');
  }

  lemma SlotTaken(sys: System, v: nat) returns (sys': System)
    requires v in sys.checks && sys.checks[v].pc == Waiting
    requires var inst := sys.checks[v].inst; inst in sys.live && sys.live[inst].busy < sys.live[inst].workers
    ensures Next(sys, CheckSlot(v), sys') && v in sys'.checks && sys'.checks[v] == sys.checks[v].(pc := Reading)
  {
    var c := sys.checks[v];
    sys' := With(sys, c.inst, sys.live[c.inst].(busy := sys.live[c.inst].busy + 1))
            .(checks := sys.checks[v := c.(pc := Reading)]);
  }

  /** All instances can die; the store stays as it is. */
  lemma {:induction false} AllDie(t: Trace) returns (t': Trace)
    requires t.Legal() && Inv(t.Last())
    ensures Longer(t, t') && t'.Last().live == map[] && t'.Last().store == t.Last().store
    decreases |t.Last().live|
  {
    var sys := t.Last();
    if inst :| inst in sys.live {
      t' := GoOn(t, Die(inst), Without(sys, inst));
      assert Without(sys, inst).live.Keys == sys.live.Keys - {inst};
      t' := AllDie(t');
    } else {
      t' := t;
    }
  }

  /** A job that is verifying is taken up again by the next instance that starts, and updates its disk. */
  lemma VerifyingJobRevives(t: Trace, j: Id) returns (t': Trace)
    requires t.Legal() && Inv(t.Last()) && j in t.Last().store.jobs && InFlight(t.Last().store.jobs[j].status)
    ensures Longer(t, t') && !IsScrapped(t'.Last().store, t.Last().store.jobs[j].disk)
  {
    t' := AllDie(t);
    t' := StartsClaiming(t', t.Last().store.jobs[j].lockedBy + "x");
    t' := TakenUpAgain(t', t.Last().store.jobs[j].lockedBy + "x", j);
  }

  /** An instance that has just started, alone, takes up the job. */
  lemma TakenUpAgain(t: Trace, inst: string, j: Id) returns (t': Trace)
    requires t.Legal() && Inv(t.Last()) && t.Last().live == map[inst := Instance(1, 1, true, true)]
    requires j in t.Last().store.jobs && InFlight(t.Last().store.jobs[j].status) && t.Last().store.jobs[j].lockedBy != inst
    ensures Longer(t, t') && !IsScrapped(t'.Last().store, t.Last().store.jobs[j].disk)
  {
    OrphanClaimable(t.Last(), inst, j);
    var g;
    t', g := ClaimsJob(t, inst, j);
    t' := RunRevives(t', g);
  }

  lemma OrphanClaimable(sys: System, inst: string, j: Id)
    requires sys.live == map[inst := Instance(1, 1, true, true)]
    requires j in sys.store.jobs && InFlight(sys.store.jobs[j].status) && sys.store.jobs[j].lockedBy != inst
    ensures Claimable(sys, inst, j)
  {
    assert Orphan(sys.store, j, inst, 0, sys.now);
  }

  lemma StartsClaiming(t: Trace, inst: string) returns (t': Trace)
    requires t.Legal() && Inv(t.Last()) && t.Last().live == map[]
    ensures Longer(t, t') && t'.Last().store == t.Last().store
    ensures t'.Last().live == map[inst := Instance(1, 1, true, true)]
  {
    t' := Starts(t, inst, 1);
    var sys := t'.Last();
    t' := GoOn(t', TakeSlot(inst), With(sys, inst, Instance(1, 1, true, true)));
  }

  lemma Starts(t: Trace, inst: string, workers: nat) returns (t': Trace)
    requires t.Legal() && Inv(t.Last()) && t.Last().live == map[] && workers >= 1
    ensures Longer(t, t') && t'.Last().store == t.Last().store
    ensures t'.Last().live == map[inst := Instance(workers, 0, false, true)]
  {
    t' := GoOn(t, Start(inst, workers), With(t.Last(), inst, Instance(workers, 0, false, true)));
  }
}
