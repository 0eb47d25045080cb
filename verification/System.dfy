/**
 * The whole system as a state machine: service calls, several worker instances with a clock, slots, claims,
 * job runs, re-verifications, deaths and restarts. Every step is one store operation, or one service call.
 *
 * Nothing fences a run off from the store, so mutual exclusion rests on two assumptions, stated as guards of the
 * steps they restrict: time only passes while every live run's heartbeat stays within the timeout (Tick), and an
 * instance in its starting window claims only while no other instance is live (ClaimJob).
 */
module SystemModel {
  import opened Domain
  import opened StoreModel
  import opened History
  import opened ServiceRules
  import opened RunnerModel
  import opened Gate
  import opened Finality
  import opened Upkeep

  /**
   * A worker process, with at least one slot: the slots in use, and whether its scheduler holds one for a claim it is
   * making.
   */
  datatype Instance = Instance(workers: nat, busy: nat, claiming: bool, starting: bool)

  /** How far a re-verification has come: waiting for a slot, reading the device, or about to log its result. */
  datatype CheckPc = Waiting | Reading | Logging

  /** A re-verification in progress. It read its disk's row before it began to wait for a slot. */
  datatype Check = Check(inst: string, disk: Id, operator: string, pc: CheckPc)

  datatype System = System(
    store: Store, now: nat, staleAfter: nat,
    live: map<string, Instance>, runs: map<nat, Runner>, checks: map<nat, Check>)

  datatype Event =
    | Tick(ns: nat)
    | Start(inst: string, workers: nat)
    | EndGrace(inst: string)
    | Die(inst: string)
    | TakeSlot(inst: string)
    | ClaimNone(inst: string)
    | ClaimJob(inst: string, name: string, job: Id, run: nat)
    | MoveRun(run: nat, move: Move, pc: Pc)
    | BeginCheck(check: nat, inst: string, disk: Id, operator: string)
    | CheckSlot(check: nat)
    | CheckFails(check: nat)          // a difference was found: the disk fails
    | CheckLogs(check: nat)
    | DropCheck(check: nat)           // cancelled while waiting, or the device could not be read
    | ServiceCall(call: Call)

  predicate Fresh(s: Store, j: Id, now: nat, staleAfter: nat)
    requires j in s.jobs
  {
    InFlight(s.jobs[j].status) ==> Heartbeat(s, j) >= 1 && now - Heartbeat(s, j) <= staleAfter * SECOND
  }

  /** The timing assumption: every live run keeps its heartbeat within the timeout. */
  ghost predicate Timely(sys: System, now: nat) {
    forall g :: g in sys.runs && sys.runs[g].job in sys.store.jobs ==>
      Fresh(sys.store, sys.runs[g].job, now, sys.staleAfter)
  }

  function StaleFor(sys: System, i: Instance): nat {
    if i.starting then 0 else sys.staleAfter
  }

  predicate OnTime(move: Move, now: nat) {
    match move
    case MarkRunning(t) => t == now
    case Progress(_, _, _, _, t) => t == now
    case SaveVerified(_, _, t) => t == now
    case _ => true
  }

  function With(sys: System, inst: string, i: Instance): System {
    sys.(live := sys.live[inst := i])
  }

  function NewRun(s: Store, inst: string, name: string, job: Id): Runner
    requires job in s.jobs && s.jobs[job].disk in s.disks
  {
    Runner(inst, name, job, s.jobs[job], s.disks[s.jobs[job].disk], Claimed)
  }

  function GivenBack(live: map<string, Instance>, inst: string): map<string, Instance> {
    if inst in live && live[inst].busy > 0 then live[inst := live[inst].(busy := live[inst].busy - 1)] else live
  }

  /** A finished run gives its slot back. */
  function Moved(sys: System, g: nat, s': Store, pc: Pc): System
    requires g in sys.runs
  {
    var r := sys.runs[g];
    if pc == Gone then sys.(store := s', runs := sys.runs - {g}, live := GivenBack(sys.live, r.inst))
    else sys.(store := s', runs := sys.runs[g := r.(pc := pc)])
  }

  /** So does a finished re-verification, if it ever got one. */
  function Dropped(sys: System, v: nat): System
    requires v in sys.checks
  {
    sys.(checks := sys.checks - {v},
         live := if sys.checks[v].pc == Waiting then sys.live else GivenBack(sys.live, sys.checks[v].inst))
  }

  function Without(sys: System, inst: string): System {
    sys.(live := sys.live - {inst},
         runs := map g | g in sys.runs && sys.runs[g].inst != inst :: sys.runs[g],
         checks := map v | v in sys.checks && sys.checks[v].inst != inst :: sys.checks[v])
  }

  function CheckRow(c: Check): Audit {
    Audit(c.operator, ReverifyDisk, DiskEntity, c.disk)
  }

  ghost predicate Next(sys: System, event: Event, sys': System) {
    match event
    case Tick(ns) =>
      Timely(sys, sys.now + ns) && sys' == sys.(now := sys.now + ns)
    case Start(inst, workers) =>
      inst !in sys.live && workers >= 1 && sys' == With(sys, inst, Instance(workers, 0, false, true))
    case EndGrace(inst) =>
      inst in sys.live && sys' == With(sys, inst, sys.live[inst].(starting := false))
    case Die(inst) =>
      inst in sys.live && sys' == Without(sys, inst)
    case TakeSlot(inst) =>
      && inst in sys.live && !sys.live[inst].claiming && sys.live[inst].busy < sys.live[inst].workers
      && sys' == With(sys, inst, sys.live[inst].(busy := sys.live[inst].busy + 1, claiming := true))
    case ClaimNone(inst) =>
      && inst in sys.live && sys.live[inst].claiming && sys.live[inst].busy > 0
      && Acquired(sys.store, inst, StaleFor(sys, sys.live[inst]), sys.now, sys'.store, None)
      && sys' == With(sys, inst, sys.live[inst].(busy := sys.live[inst].busy - 1, claiming := false)).(store := sys'.store)
    case ClaimJob(inst, name, job, run) =>
      && inst in sys.live && sys.live[inst].claiming
      && (sys.live[inst].starting ==> sys.live.Keys == {inst})
      && Acquired(sys.store, inst, StaleFor(sys, sys.live[inst]), sys.now, sys'.store, Some(job))
      && run !in sys.runs && job in sys'.store.jobs && sys'.store.jobs[job].disk in sys'.store.disks
      && sys' == With(sys, inst, sys.live[inst].(claiming := false))
                 .(store := sys'.store, runs := sys.runs[run := NewRun(sys'.store, inst, name, job)])
    case MoveRun(run, move, pc) =>
      && run in sys.runs && OnTime(move, sys.now) && Step(sys.store, sys.runs[run], move, sys'.store, pc)
      && sys' == Moved(sys, run, sys'.store, pc)
    case BeginCheck(check, inst, disk, operator) =>
      && inst in sys.live && check !in sys.checks && disk in sys.store.disks && JobsOf(sys.store, disk) != {}
      && (sys.store.disks[disk].status == DiskVerified || sys.store.disks[disk].status == DiskFailed)
      && sys' == sys.(checks := sys.checks[check := Check(inst, disk, operator, Waiting)])
    case CheckSlot(check) =>
      && check in sys.checks && sys.checks[check].pc == Waiting
      && var inst := sys.checks[check].inst;
         && inst in sys.live && sys.live[inst].busy < sys.live[inst].workers
         && sys' == With(sys, inst, sys.live[inst].(busy := sys.live[inst].busy + 1))
                    .(checks := sys.checks[check := sys.checks[check].(pc := Reading)])
    case CheckFails(check) =>
      && check in sys.checks && sys.checks[check].pc == Reading
      && sys' == sys.(store := UpdateDiskStatus(sys.store, sys.checks[check].disk, DiskFailed, sys.checks[check].operator).store,
                      checks := sys.checks[check := sys.checks[check].(pc := Logging)])
    case CheckLogs(check) =>
      && check in sys.checks && sys.checks[check].pc != Waiting
      && sys' == Dropped(sys, check).(store := AppendAudit(sys.store, CheckRow(sys.checks[check])).store)
    case DropCheck(check) =>
      check in sys.checks && sys.checks[check].pc != Logging && sys' == Dropped(sys, check)
    case ServiceCall(call) =>
      Permitted(sys.store, call) && sys' == sys.(store := Perform(sys.store, call))
  }

  ghost predicate Initial(sys: System) {
    sys.store == EMPTY && sys.live == map[] && sys.runs == map[] && sys.checks == map[] && sys.now >= 1 && sys.staleAfter >= 1
  }

  // ---- the invariant ----

  function RunsOn(runs: map<nat, Runner>, inst: string): (gs: set<nat>)
    ensures gs <= runs.Keys
  {
    set g | g in runs && runs[g].inst == inst
  }

  /** The re-verifications that hold a slot. */
  function ChecksOn(checks: map<nat, Check>, inst: string): (vs: set<nat>)
    ensures vs <= checks.Keys
  {
    set v | v in checks && checks[v].inst == inst && checks[v].pc != Waiting
  }

  function InUse(runs: map<nat, Runner>, checks: map<nat, Check>, inst: string): nat {
    |RunsOn(runs, inst)| + |ChecksOn(checks, inst)|
  }

  predicate SlotsCounted(i: Instance, used: nat) {
    i.busy == used + (if i.claiming then 1 else 0) && i.busy <= i.workers && i.workers >= 1
  }

  ghost predicate Slots(live: map<string, Instance>, runs: map<nat, Runner>, checks: map<nat, Check>) {
    forall i :: i in live ==> SlotsCounted(live[i], InUse(runs, checks, i))
  }

  ghost predicate Alive(live: map<string, Instance>, runs: map<nat, Runner>, checks: map<nat, Check>) {
    (forall g :: g in runs ==> runs[g].inst in live) && (forall v :: v in checks ==> checks[v].inst in live)
  }

  ghost predicate ChecksKnown(checks: map<nat, Check>, disks: map<Id, Disk>) {
    forall v :: v in checks ==> checks[v].disk in disks
  }

  predicate SameJob(runs: map<nat, Runner>, g: nat, h: nat)
    requires g in runs && h in runs
  {
    runs[g].job == runs[h].job
  }

  ghost predicate Exclusive(runs: map<nat, Runner>) {
    forall g, h :: g in runs && h in runs && SameJob(runs, g, h) ==> g == h
  }

  /** The run's instance holds the lock on the job, and the lock is not stale. */
  ghost predicate Leased(s: Store, now: nat, staleAfter: nat, r: Runner) {
    && r.job in s.jobs && s.jobs[r.job].lockedBy == r.inst && s.jobs[r.job].status != JobPending
    && Fresh(s, r.job, now, staleAfter)
  }

  ghost predicate AllLeased(sys: System) {
    forall g :: g in sys.runs ==> Leased(sys.store, sys.now, sys.staleAfter, sys.runs[g])
  }

  ghost predicate AllStand(s: Store, runs: map<nat, Runner>) {
    forall g :: g in runs ==> Stands(s, runs[g])
  }

  ghost predicate Leases(sys: System) {
    && sys.now >= 1 && sys.staleAfter >= 1
    && Alive(sys.live, sys.runs, sys.checks) && Exclusive(sys.runs) && Slots(sys.live, sys.runs, sys.checks)
    && AllLeased(sys)
  }

  ghost predicate Inv(sys: System) {
    Kept(sys.store) && Leases(sys) && AllStand(sys.store, sys.runs) && ChecksKnown(sys.checks, sys.store.disks)
  }

  // ---- slots ----

  lemma RunAdded(runs: map<nat, Runner>, g: nat, r: Runner, inst: string)
    requires g !in runs
    ensures |RunsOn(runs[g := r], inst)| == |RunsOn(runs, inst)| + (if inst == r.inst then 1 else 0)
  {
    assert RunsOn(runs[g := r], inst) == RunsOn(runs, inst) + (if inst == r.inst then {g} else {});
  }

  lemma RunRemoved(runs: map<nat, Runner>, g: nat, inst: string)
    requires g in runs
    ensures |RunsOn(runs - {g}, inst)| == |RunsOn(runs, inst)| - (if inst == runs[g].inst then 1 else 0)
  {
    assert RunsOn(runs - {g}, inst) == RunsOn(runs, inst) - (if inst == runs[g].inst then {g} else {});
  }

  lemma RunReplaced(runs: map<nat, Runner>, g: nat, r: Runner, inst: string)
    requires g in runs && r.inst == runs[g].inst
    ensures RunsOn(runs[g := r], inst) == RunsOn(runs, inst)
  {}

  lemma CheckReplaced(checks: map<nat, Check>, v: nat, c: Check, inst: string)
    requires v in checks && c.inst == checks[v].inst && c.pc != Waiting
    ensures |ChecksOn(checks[v := c], inst)|
            == |ChecksOn(checks, inst)| + (if inst == c.inst && checks[v].pc == Waiting then 1 else 0)
  {
    var before, after := ChecksOn(checks, inst), ChecksOn(checks[v := c], inst);
    if inst == c.inst && checks[v].pc == Waiting {
      assert v !in before && after == before + {v};
    } else {
      assert after == before;
    }
  }

  lemma CheckRemoved(checks: map<nat, Check>, v: nat, inst: string)
    requires v in checks
    ensures |ChecksOn(checks - {v}, inst)|
            == |ChecksOn(checks, inst)| - (if inst == checks[v].inst && checks[v].pc != Waiting then 1 else 0)
  {
    assert ChecksOn(checks - {v}, inst) == ChecksOn(checks, inst) - {v};
  }

  lemma SlotsPut(live: map<string, Instance>, runs: map<nat, Runner>, checks: map<nat, Check>, inst: string, i: Instance)
    requires Slots(live, runs, checks) && SlotsCounted(i, InUse(runs, checks, inst))
    ensures Slots(live[inst := i], runs, checks)
  {}

  lemma NothingYet(live: map<string, Instance>, runs: map<nat, Runner>, checks: map<nat, Check>, inst: string)
    requires Alive(live, runs, checks) && inst !in live
    ensures InUse(runs, checks, inst) == 0
  {
    assert RunsOn(runs, inst) == {} && ChecksOn(checks, inst) == {};
  }

  lemma SlotsAfterMove(sys: System, g: nat, s': Store, pc: Pc)
    requires g in sys.runs && Slots(sys.live, sys.runs, sys.checks) && Alive(sys.live, sys.runs, sys.checks)
    ensures var sys' := Moved(sys, g, s', pc);
            && Slots(sys'.live, sys'.runs, sys'.checks) && Alive(sys'.live, sys'.runs, sys'.checks)
            && sys'.live.Keys == sys.live.Keys
  {
    var sys' := Moved(sys, g, s', pc);
    assert g in RunsOn(sys.runs, sys.runs[g].inst);
    forall i | i in sys'.live ensures SlotsCounted(sys'.live[i], InUse(sys'.runs, sys'.checks, i)) {
      InUseAfterMove(sys, g, s', pc, i);
    }
  }

  lemma InUseAfterMove(sys: System, g: nat, s': Store, pc: Pc, inst: string)
    requires g in sys.runs
    ensures var sys' := Moved(sys, g, s', pc);
            InUse(sys'.runs, sys'.checks, inst)
            == InUse(sys.runs, sys.checks, inst) - (if pc == Gone && inst == sys.runs[g].inst then 1 else 0)
  {
    if pc == Gone {
      RunRemoved(sys.runs, g, inst);
    } else {
      RunReplaced(sys.runs, g, sys.runs[g].(pc := pc), inst);
    }
  }

  lemma SlotsAfterClaim(sys: System, inst: string, g: nat, r: Runner)
    requires Slots(sys.live, sys.runs, sys.checks) && inst in sys.live && sys.live[inst].claiming
    requires g !in sys.runs && r.inst == inst
    ensures Slots(sys.live[inst := sys.live[inst].(claiming := false)], sys.runs[g := r], sys.checks)
  {
    var live := sys.live[inst := sys.live[inst].(claiming := false)];
    forall i | i in live ensures SlotsCounted(live[i], InUse(sys.runs[g := r], sys.checks, i)) {
      RunAdded(sys.runs, g, r, i);
    }
  }

  lemma SlotsAfterDrop(sys: System, v: nat)
    requires v in sys.checks && Slots(sys.live, sys.runs, sys.checks) && Alive(sys.live, sys.runs, sys.checks)
    ensures var sys' := Dropped(sys, v);
            && Slots(sys'.live, sys'.runs, sys'.checks) && Alive(sys'.live, sys'.runs, sys'.checks)
            && sys'.live.Keys == sys.live.Keys
  {
    var sys' := Dropped(sys, v);
    assert sys.checks[v].pc != Waiting ==> v in ChecksOn(sys.checks, sys.checks[v].inst);
    forall i | i in sys'.live ensures SlotsCounted(sys'.live[i], InUse(sys'.runs, sys'.checks, i)) {
      CheckRemoved(sys.checks, v, i);
    }
  }

  lemma SlotsAfterDeath(sys: System, inst: string)
    requires Slots(sys.live, sys.runs, sys.checks) && Alive(sys.live, sys.runs, sys.checks)
    ensures var sys' := Without(sys, inst);
            Slots(sys'.live, sys'.runs, sys'.checks) && Alive(sys'.live, sys'.runs, sys'.checks)
  {
    var sys' := Without(sys, inst);
    forall i | i in sys'.live ensures InUse(sys'.runs, sys'.checks, i) == InUse(sys.runs, sys.checks, i) {
      InUseAfterDeath(sys, inst, i);
    }
  }

  lemma InUseAfterDeath(sys: System, inst: string, other: string)
    requires other != inst
    ensures InUse(Without(sys, inst).runs, Without(sys, inst).checks, other) == InUse(sys.runs, sys.checks, other)
  {
    var sys' := Without(sys, inst);
    assert RunsOn(sys'.runs, other) == RunsOn(sys.runs, other) && ChecksOn(sys'.checks, other) == ChecksOn(sys.checks, other);
  }

  // ---- leases ----

  lemma UntouchedLeased(s: Store, s': Store, r: Runner, now: nat, staleAfter: nat)
    requires Leased(s, now, staleAfter, r) && Untouched(s, s', r.job)
    ensures Leased(s', now, staleAfter, r)
  {}

  /** A move of a run refreshes its heartbeat or ends its job; it never lets go of the lock. */
  lemma MoveKeepsLease(s: Store, r: Runner, move: Move, s': Store, pc: Pc, now: nat, staleAfter: nat)
    requires Leased(s, now, staleAfter, r) && Step(s, r, move, s', pc) && OnTime(move, now) && now >= 1
    ensures Leased(s', now, staleAfter, r)
  {
    if move.SaveVerified? {
      BuiltInStandards(r.jobRow.standard);
    } else if move == AssetDone {
      AssetsForward(s, r.diskRow.asset, AssetErasureDone, r.name, ErasureVerified);
    }
  }

  /** The heart of mutual exclusion: nobody can claim a job that a live run is working on. */
  lemma LiveRunNotEligible(sys: System, inst: string, g: nat)
    requires Leases(sys) && inst in sys.live && g in sys.runs
    requires sys.live[inst].starting ==> sys.live.Keys == {inst}
    ensures sys.runs[g].job in sys.store.jobs
    ensures !Eligible(sys.store, sys.runs[g].job, inst, StaleFor(sys, sys.live[inst]), sys.now)
  {
    assert Leased(sys.store, sys.now, sys.staleAfter, sys.runs[g]) && sys.runs[g].inst in sys.live;
  }

  lemma ClaimAvoidsRuns(sys: System, inst: string, job: Id)
    requires Leases(sys) && inst in sys.live && job in sys.store.jobs
    requires sys.live[inst].starting ==> sys.live.Keys == {inst}
    requires Eligible(sys.store, job, inst, StaleFor(sys, sys.live[inst]), sys.now)
    ensures forall g :: g in sys.runs ==> sys.runs[g].job != job
  {
    forall g | g in sys.runs ensures sys.runs[g].job != job {
      LiveRunNotEligible(sys, inst, g);
    }
  }

  /**
   * How far the assumptions are needed. Whatever the clock says, a job with a live run can be claimed a second
   * time by another instance exactly when that instance is starting, or the run's heartbeat is over the timeout.
   */
  lemma StolenIff(sys: System, g: nat, inst: string)
    requires g in sys.runs && inst in sys.live && inst != sys.runs[g].inst && sys.staleAfter >= 1
    requires var r := sys.runs[g];
             && r.job in sys.store.jobs && sys.store.jobs[r.job].lockedBy == r.inst && InFlight(sys.store.jobs[r.job].status)
             && Heartbeat(sys.store, r.job) >= 1
    ensures (exists s' :: Acquired(sys.store, inst, StaleFor(sys, sys.live[inst]), sys.now, s', Some(sys.runs[g].job)))
            <==> sys.live[inst].starting || sys.now - Heartbeat(sys.store, sys.runs[g].job) > sys.staleAfter * SECOND
  {
    var j := sys.runs[g].job;
    var stale := StaleFor(sys, sys.live[inst]);
    if Orphan(sys.store, j, inst, stale, sys.now) {
      assert Acquired(sys.store, inst, stale, sys.now, Claim(sys.store, j, inst, sys.now), Some(j));
    }
  }

  /**
   * How long a lease lasts. A claim, the mark that begins a run and every saved report hold a job for `staleAfter`
   * seconds: another instance that is not starting can take it at a later time exactly when that many have passed.
   */
  lemma LeaseLasts(s: Store, j: Id, other: string, staleAfter: nat, now: nat, later: nat)
    requires j in s.jobs && other != s.jobs[j].lockedBy && staleAfter >= 1 && now >= 1
    requires s.jobs[j].lockedAt <= now && (j in s.checkpoints ==> s.checkpoints[j].heartbeat <= now)
    ensures forall worker :: worker != other && (s.jobs[j].status == JobPending || InFlight(s.jobs[j].status)) ==>
              var s' := Claim(s, j, worker, now);
              j in s'.jobs && (Eligible(s', j, other, staleAfter, later) <==> later - now > staleAfter * 1_000_000_000)
    ensures forall attempt :: var s' := MarkJobRunning(s, j, attempt, now).store;
              j in s'.jobs && (Eligible(s', j, other, staleAfter, later) <==> later - now > staleAfter * 1_000_000_000)
    ensures forall pass, offset, total, status :: InFlight(status) ==>
              var s' := SaveProgress(s, j, pass, offset, total, status, now).store;
              j in s'.jobs && (Eligible(s', j, other, staleAfter, later) <==> later - now > staleAfter * 1_000_000_000)
  {}

  // ---- every step keeps the invariant ----

  ghost predicate Onward(sys: System, sys': System) {
    Inv(sys') && (Bound(sys.store) ==> Bound(sys'.store))
  }

  /** Runs are undisturbed by a step that does not touch their jobs. */
  lemma RunsUntouched(sys: System, s': Store)
    requires AllLeased(sys) && AllStand(sys.store, sys.runs) && Around(sys.store, s') && s'.certs == sys.store.certs
    requires forall j :: j in sys.store.jobs ==> Untouched(sys.store, s', j)
    ensures AllLeased(sys.(store := s')) && AllStand(s', sys.runs)
  {
    forall g | g in sys.runs
      ensures Leased(s', sys.now, sys.staleAfter, sys.runs[g]) && Stands(s', sys.runs[g])
    {
      assert Leased(sys.store, sys.now, sys.staleAfter, sys.runs[g]);
      assert Untouched(sys.store, s', sys.runs[g].job);
      UntouchedLeased(sys.store, s', sys.runs[g], sys.now, sys.staleAfter);
      UntouchedStands(sys.store, s', sys.runs[g]);
    }
  }

  lemma CallStep(sys: System, call: Call)
    requires Inv(sys) && Permitted(sys.store, call)
    ensures var sys' := sys.(store := Perform(sys.store, call));
            Inv(sys') && (Bound(sys.store) && Whole(call) ==> Bound(sys'.store))
  {
    CallKeepsAll(sys.store, call);
    CallKeepsFinal(sys.store, call);
    RunsUntouched(sys, Perform(sys.store, call));
    ChecksStayKnown(sys.checks, sys.store.disks, Perform(sys.store, call).disks);
  }

  lemma ChecksStayKnown(checks: map<nat, Check>, disks: map<Id, Disk>, disks': map<Id, Disk>)
    requires ChecksKnown(checks, disks) && DisksStay(disks, disks')
    ensures ChecksKnown(checks, disks')
  {}

  /** What a re-verification may do to the store leaves every run as it was. */
  ghost predicate Checked(sys: System, s': Store) {
    && Kept(s') && (Bound(sys.store) ==> Bound(s')) && DisksStay(sys.store.disks, s'.disks)
    && AllLeased(sys.(store := s')) && AllStand(s', sys.runs)
  }

  lemma FailedByCheck(sys: System, disk: Id, operator: string)
    requires Inv(sys)
    ensures Checked(sys, UpdateDiskStatus(sys.store, disk, DiskFailed, operator).store)
  {
    var s' := UpdateDiskStatus(sys.store, disk, DiskFailed, operator).store;
    DiskUpkeep(sys.store, disk, DiskFailed, operator);
    DiskStep(sys.store, disk, DiskFailed, operator, "");
    DiskMoved(sys.store, disk, DiskFailed, operator);
    CalmAround(sys.store, s');
    RunsUntouched(sys, s');
  }

  lemma LoggedByCheck(sys: System, row: Audit)
    requires Inv(sys) && row.action == ReverifyDisk && row.kind == DiskEntity && row.id in sys.store.disks
    ensures Checked(sys, AppendAudit(sys.store, row).store)
  {
    var s' := AppendAudit(sys.store, row).store;
    AuditUpkeep(sys.store, row);
    CalmAround(sys.store, s');
    CalmKeepsFinal(sys.store, s');
    RunsUntouched(sys, s');
  }

  /** Steps of instances and re-verifications that leave every run alone: clock, runs and store facts stay. */
  lemma RunsAlone(sys: System, sys': System)
    requires Leases(sys) && sys'.runs == sys.runs && sys'.now == sys.now && sys'.staleAfter == sys.staleAfter
    requires AllLeased(sys.(store := sys'.store)) && Slots(sys'.live, sys'.runs, sys'.checks) && Alive(sys'.live, sys'.runs, sys'.checks)
    ensures Leases(sys')
  {
    forall g | g in sys'.runs ensures Leased(sys'.store, sys'.now, sys'.staleAfter, sys'.runs[g]) {
      assert Leased(sys.(store := sys'.store).store, sys.now, sys.staleAfter, sys.runs[g]);
    }
  }

  lemma SlotsAfterCheck(sys: System, v: nat, c: Check)
    requires v in sys.checks && c == sys.checks[v].(pc := c.pc) && c.pc != Waiting && sys.checks[v].pc != Waiting
    requires Slots(sys.live, sys.runs, sys.checks) && Alive(sys.live, sys.runs, sys.checks)
    ensures Slots(sys.live, sys.runs, sys.checks[v := c]) && Alive(sys.live, sys.runs, sys.checks[v := c])
  {
    forall i | i in sys.live ensures SlotsCounted(sys.live[i], InUse(sys.runs, sys.checks[v := c], i)) {
      CheckReplaced(sys.checks, v, c, i);
    }
  }

  lemma CheckFailsStep(sys: System, v: nat, sys': System)
    requires Inv(sys) && Next(sys, CheckFails(v), sys')
    ensures Onward(sys, sys')
  {
    FailedByCheck(sys, sys.checks[v].disk, sys.checks[v].operator);
    CheckFailsLeases(sys, v, sys');
    CheckedOnward(sys, sys');
  }

  lemma CheckedOnward(sys: System, sys': System)
    requires Checked(sys, sys'.store) && Leases(sys') && sys'.runs == sys.runs && ChecksKnown(sys'.checks, sys.store.disks)
    ensures Onward(sys, sys')
  {
    ChecksStayKnown(sys'.checks, sys.store.disks, sys'.store.disks);
  }

  lemma CheckFailsLeases(sys: System, v: nat, sys': System)
    requires Leases(sys) && Next(sys, CheckFails(v), sys') && AllLeased(sys.(store := sys'.store))
    ensures Leases(sys') && (ChecksKnown(sys.checks, sys.store.disks) ==> ChecksKnown(sys'.checks, sys.store.disks))
  {
    SlotsAfterCheck(sys, v, sys'.checks[v]);
    RunsAlone(sys, sys');
  }

  lemma CheckLogsStep(sys: System, v: nat, sys': System)
    requires Inv(sys) && Next(sys, CheckLogs(v), sys')
    ensures Onward(sys, sys')
  {
    LoggedByCheck(sys, CheckRow(sys.checks[v]));
    CheckLogsLeases(sys, v, sys');
    CheckedOnward(sys, sys');
  }

  lemma CheckLogsLeases(sys: System, v: nat, sys': System)
    requires Leases(sys) && Next(sys, CheckLogs(v), sys') && AllLeased(sys.(store := sys'.store))
    ensures Leases(sys') && (ChecksKnown(sys.checks, sys.store.disks) ==> ChecksKnown(sys'.checks, sys.store.disks))
  {
    SlotsAfterDrop(sys, v);
    RunsAlone(sys, sys');
  }

  /** The other runs when one run's job is touched, or a job that no run works on. */
  lemma OtherRuns(sys: System, s': Store, job: Id, g: nat)
    requires AllLeased(sys) && AllStand(sys.store, sys.runs) && g in sys.runs && sys.runs[g].job != job
    requires Others(sys.store, s', job)
    ensures Leased(s', sys.now, sys.staleAfter, sys.runs[g]) && Stands(s', sys.runs[g])
  {
    assert Leased(sys.store, sys.now, sys.staleAfter, sys.runs[g]);
    assert Untouched(sys.store, s', sys.runs[g].job);
    UntouchedLeased(sys.store, s', sys.runs[g], sys.now, sys.staleAfter);
    UntouchedStands(sys.store, s', sys.runs[g]);
  }

  /** The runs after a move of one of them, from what the move does to the store. */
  lemma RunsAfterMove(sys: System, g: nat, s': Store, pc: Pc)
    requires Leases(sys) && AllStand(sys.store, sys.runs) && g in sys.runs && Others(sys.store, s', sys.runs[g].job)
    requires Leased(s', sys.now, sys.staleAfter, sys.runs[g]) && (pc != Gone ==> Stands(s', sys.runs[g].(pc := pc)))
    ensures var sys' := Moved(sys, g, s', pc); Leases(sys') && AllStand(s', sys'.runs)
  {
    var sys' := Moved(sys, g, s', pc);
    SlotsAfterMove(sys, g, s', pc);
    StandAfterMove(sys, g, s', pc);
    ExclusiveAfterMove(sys, g, s', pc);
  }

  lemma StandAfterMove(sys: System, g: nat, s': Store, pc: Pc)
    requires AllLeased(sys) && Exclusive(sys.runs) && AllStand(sys.store, sys.runs) && g in sys.runs
    requires Others(sys.store, s', sys.runs[g].job)
    requires Leased(s', sys.now, sys.staleAfter, sys.runs[g]) && (pc != Gone ==> Stands(s', sys.runs[g].(pc := pc)))
    ensures var runs := Moved(sys, g, s', pc).runs;
            AllStand(s', runs) && forall h :: h in runs ==> Leased(s', sys.now, sys.staleAfter, runs[h])
  {
    var runs := Moved(sys, g, s', pc).runs;
    forall h | h in runs ensures Leased(s', sys.now, sys.staleAfter, runs[h]) && Stands(s', runs[h]) {
      if h != g {
        assert !SameJob(sys.runs, h, g);
        OtherRuns(sys, s', sys.runs[g].job, h);
      }
    }
  }

  lemma ExclusiveAfterMove(sys: System, g: nat, s': Store, pc: Pc)
    requires Exclusive(sys.runs) && g in sys.runs
    ensures Exclusive(Moved(sys, g, s', pc).runs)
  {
    var runs := Moved(sys, g, s', pc).runs;
    forall h, k | h in runs && k in runs && SameJob(runs, h, k) ensures h == k {
      assert SameJob(sys.runs, h, k);
    }
  }

  lemma MoveStep(sys: System, g: nat, move: Move, sys': System, pc: Pc)
    requires Inv(sys) && Next(sys, MoveRun(g, move, pc), sys')
    ensures Onward(sys, sys')
  {
    assert Stands(sys.store, sys.runs[g]) && Leased(sys.store, sys.now, sys.staleAfter, sys.runs[g]);
    MoveOutcome(sys.store, sys.runs[g], move, sys'.store, pc, sys.now, sys.staleAfter);
    RunsAfterMove(sys, g, sys'.store, pc);
    ChecksStayKnown(sys.checks, sys.store.disks, sys'.store.disks);
  }

  lemma MoveOutcome(s: Store, r: Runner, move: Move, s': Store, pc: Pc, now: nat, staleAfter: nat)
    requires Kept(s) && Stands(s, r) && Leased(s, now, staleAfter, r) && Step(s, r, move, s', pc) && OnTime(move, now) && now >= 1
    ensures Advances(s, s') && Others(s, s', r.job)
    ensures Leased(s', now, staleAfter, r) && (pc != Gone ==> Stands(s', r.(pc := pc)))
  {
    MoveKeeps(s, r, move, s', pc);
    MoveKeepsFinal(s, r, move, s', pc);
    MoveKeepsLease(s, r, move, s', pc, now, staleAfter);
  }

  /** The runs after a claim of a job that no run works on. */
  lemma RunsAfterClaim(sys: System, sys': System, g: nat, r: Runner)
    requires Leases(sys) && AllStand(sys.store, sys.runs) && g !in sys.runs && Others(sys.store, sys'.store, r.job)
    requires forall h :: h in sys.runs ==> sys.runs[h].job != r.job
    requires r.inst in sys.live && sys.live[r.inst].claiming
    requires Leased(sys'.store, sys.now, sys.staleAfter, r) && Stands(sys'.store, r)
    requires sys' == With(sys, r.inst, sys.live[r.inst].(claiming := false)).(store := sys'.store, runs := sys.runs[g := r])
    ensures Leases(sys') && AllStand(sys'.store, sys'.runs)
  {
    SlotsAfterClaim(sys, r.inst, g, r);
    StandAfterClaim(sys, sys', g, r);
    ExclusiveAfterClaim(sys.runs, g, r);
  }

  lemma StandAfterClaim(sys: System, sys': System, g: nat, r: Runner)
    requires AllLeased(sys) && AllStand(sys.store, sys.runs) && g !in sys.runs && Others(sys.store, sys'.store, r.job)
    requires forall h :: h in sys.runs ==> sys.runs[h].job != r.job
    requires Leased(sys'.store, sys.now, sys.staleAfter, r) && Stands(sys'.store, r)
    requires sys'.runs == sys.runs[g := r] && sys'.now == sys.now && sys'.staleAfter == sys.staleAfter
    ensures AllLeased(sys') && AllStand(sys'.store, sys'.runs)
  {
    forall h | h in sys'.runs
      ensures Leased(sys'.store, sys'.now, sys'.staleAfter, sys'.runs[h]) && Stands(sys'.store, sys'.runs[h])
    {
      if h != g {
        OtherRuns(sys, sys'.store, r.job, h);
      }
    }
  }

  lemma ExclusiveAfterClaim(runs: map<nat, Runner>, g: nat, r: Runner)
    requires Exclusive(runs) && g !in runs && forall h :: h in runs ==> runs[h].job != r.job
    ensures Exclusive(runs[g := r])
  {
    var after := runs[g := r];
    forall h, k | h in after && k in after && SameJob(after, h, k) ensures h == k {
      if h != g && k != g {
        assert SameJob(runs, h, k);
      }
    }
  }

  lemma ClaimJobStep(sys: System, inst: string, name: string, job: Id, g: nat, sys': System)
    requires Inv(sys) && Next(sys, ClaimJob(inst, name, job, g), sys')
    ensures Onward(sys, sys')
  {
    ClaimAvoidsRuns(sys, inst, job);
    ClaimOutcome(sys.store, sys'.store, inst, name, job, sys.now, sys.staleAfter);
    RunsAfterClaim(sys, sys', g, NewRun(sys'.store, inst, name, job));
  }

  lemma ClaimOutcome(s: Store, s': Store, inst: string, name: string, job: Id, now: nat, staleAfter: nat)
    requires Kept(s) && job in s.jobs && (s.jobs[job].status == JobPending || InFlight(s.jobs[job].status)) && now >= 1
    requires s' == Claim(s, job, inst, now) && job in s'.jobs && s'.jobs[job].disk in s'.disks
    ensures Advances(s, s') && Others(s, s', job)
    ensures Leased(s', now, staleAfter, NewRun(s', inst, name, job)) && Stands(s', NewRun(s', inst, name, job))
  {
    ClaimKept(s, s', inst, job, now);
    NewRunStands(s, s', inst, name, job, now, staleAfter);
  }

  lemma ClaimKept(s: Store, s': Store, inst: string, job: Id, now: nat)
    requires Kept(s) && job in s.jobs && s.jobs[job].status != JobVerified && s' == Claim(s, job, inst, now)
    ensures Advances(s, s') && Others(s, s', job)
  {
    ClaimUpkeep(s, job, inst, now);
    Finality.ClaimStep(s, job, inst, now);
    assert Carries(s, s') && Final(s');
  }

  lemma NewRunStands(s: Store, s': Store, inst: string, name: string, job: Id, now: nat, staleAfter: nat)
    requires Final(s') && job in s.jobs && (s.jobs[job].status == JobPending || InFlight(s.jobs[job].status)) && now >= 1
    requires s' == Claim(s, job, inst, now) && job in s'.jobs && s'.jobs[job].disk in s'.disks
    ensures Leased(s', now, staleAfter, NewRun(s', inst, name, job)) && Stands(s', NewRun(s', inst, name, job))
  {
    ClaimedStands(s', NewRun(s', inst, name, job));
  }

  // steps of the instances that do not touch the store

  lemma TickStep(sys: System, now: nat)
    requires Leases(sys) && Timely(sys, now) && now >= sys.now
    ensures Leases(sys.(now := now))
  {
    forall g | g in sys.runs ensures Leased(sys.store, now, sys.staleAfter, sys.runs[g]) {
      assert Leased(sys.store, sys.now, sys.staleAfter, sys.runs[g]);
    }
  }

  lemma InstanceStep(sys: System, inst: string, i: Instance)
    requires Leases(sys) && SlotsCounted(i, InUse(sys.runs, sys.checks, inst))
    ensures Leases(With(sys, inst, i))
  {
    SlotsPut(sys.live, sys.runs, sys.checks, inst, i);
    assert sys.(store := sys.store) == sys;
    RunsAlone(sys, With(sys, inst, i));
  }

  lemma BeginCheckStep(sys: System, v: nat, inst: string, disk: Id, operator: string, sys': System)
    requires Leases(sys) && Next(sys, BeginCheck(v, inst, disk, operator), sys')
    ensures Leases(sys')
  {
    SlotsAfterBegin(sys, v, sys'.checks[v]);
    assert sys.(store := sys.store) == sys;
    RunsAlone(sys, sys');
  }

  lemma SlotsAfterBegin(sys: System, v: nat, c: Check)
    requires Slots(sys.live, sys.runs, sys.checks) && Alive(sys.live, sys.runs, sys.checks)
    requires v !in sys.checks && c.inst in sys.live && c.pc == Waiting
    ensures Slots(sys.live, sys.runs, sys.checks[v := c]) && Alive(sys.live, sys.runs, sys.checks[v := c])
  {
    forall i | i in sys.live ensures SlotsCounted(sys.live[i], InUse(sys.runs, sys.checks[v := c], i)) {
      assert ChecksOn(sys.checks[v := c], i) == ChecksOn(sys.checks, i);
    }
  }

  lemma CheckSlotStep(sys: System, v: nat, sys': System)
    requires Leases(sys) && Next(sys, CheckSlot(v), sys')
    ensures Leases(sys')
  {
    forall i | i in sys'.live ensures SlotsCounted(sys'.live[i], InUse(sys'.runs, sys'.checks, i)) {
      CheckReplaced(sys.checks, v, sys'.checks[v], i);
    }
    assert sys.(store := sys.store) == sys;
    RunsAlone(sys, sys');
  }

  lemma DropCheckStep(sys: System, v: nat)
    requires Leases(sys) && v in sys.checks
    ensures Leases(Dropped(sys, v))
  {
    SlotsAfterDrop(sys, v);
    assert sys.(store := sys.store) == sys;
    RunsAlone(sys, Dropped(sys, v));
  }

  lemma DeathStep(sys: System, inst: string)
    requires Leases(sys) && AllStand(sys.store, sys.runs)
    ensures Leases(Without(sys, inst)) && AllStand(sys.store, Without(sys, inst).runs)
  {
    var sys' := Without(sys, inst);
    SlotsAfterDeath(sys, inst);
    forall h, k | h in sys'.runs && k in sys'.runs && SameJob(sys'.runs, h, k) ensures h == k {
      assert SameJob(sys.runs, h, k);
    }
    forall g | g in sys'.runs ensures Leased(sys.store, sys.now, sys.staleAfter, sys'.runs[g]) {
      assert Leased(sys.store, sys.now, sys.staleAfter, sys.runs[g]);
    }
  }

  /** A step that touches the store. */
  predicate Storing(event: Event) {
    event.ClaimJob? || event.MoveRun? || event.CheckFails? || event.CheckLogs? || event.ServiceCall?
  }

  lemma InstanceSteps(sys: System, event: Event, sys': System)
    requires Leases(sys) && AllStand(sys.store, sys.runs) && Next(sys, event, sys') && !Storing(event)
    ensures Leases(sys')
  {
    match event
    case Tick(ns) => TickStep(sys, sys.now + ns);
    case Start(inst, workers) =>
      NothingYet(sys.live, sys.runs, sys.checks, inst);
      InstanceStep(sys, inst, sys'.live[inst]);
    case Die(inst) => DeathStep(sys, inst);
    case EndGrace(inst) => InstanceStep(sys, inst, sys'.live[inst]);
    case TakeSlot(inst) => InstanceStep(sys, inst, sys'.live[inst]);
    case ClaimNone(inst) => InstanceStep(sys, inst, sys'.live[inst]);
    case BeginCheck(v, inst, disk, operator) => BeginCheckStep(sys, v, inst, disk, operator, sys');
    case CheckSlot(v) => CheckSlotStep(sys, v, sys');
    case DropCheck(v) => DropCheckStep(sys, v);
  }

  /** The other steps leave the store, and runs and checks only disappear or wait. */
  lemma IdleStep(sys: System, event: Event, sys': System)
    requires Next(sys, event, sys') && !Storing(event)
    ensures sys'.store == sys.store
    ensures forall g :: g in sys'.runs ==> g in sys.runs && sys'.runs[g] == sys.runs[g]
    ensures ChecksKnown(sys.checks, sys.store.disks) ==> ChecksKnown(sys'.checks, sys.store.disks)
  {}

  lemma IdleKeepsInv(sys: System, event: Event, sys': System)
    requires Inv(sys) && Next(sys, event, sys') && !Storing(event)
    ensures Onward(sys, sys')
  {
    InstanceSteps(sys, event, sys');
    IdleStep(sys, event, sys');
  }

  /** Every step of the system keeps the invariant, and the terms unless it is a pull that stops half-way. */
  lemma NextKeepsInv(sys: System, event: Event, sys': System)
    requires Inv(sys) && Next(sys, event, sys')
    ensures Inv(sys')
    ensures Bound(sys.store) && (event.ServiceCall? ==> Whole(event.call)) ==> Bound(sys'.store)
  {
    if event.ServiceCall? {
      CallStep(sys, event.call);
    } else {
      WorkerStep(sys, event, sys');
    }
  }

  lemma WorkerStep(sys: System, event: Event, sys': System)
    requires Inv(sys) && Next(sys, event, sys') && !event.ServiceCall?
    ensures Onward(sys, sys')
  {
    if Storing(event) {
      StoringStep(sys, event, sys');
    } else {
      IdleKeepsInv(sys, event, sys');
    }
  }

  lemma StoringStep(sys: System, event: Event, sys': System)
    requires Inv(sys) && Next(sys, event, sys') && Storing(event) && !event.ServiceCall?
    ensures Onward(sys, sys')
  {
    if event.ClaimJob? {
      ClaimJobStep(sys, event.inst, event.name, event.job, event.run, sys');
    } else if event.MoveRun? {
      MoveStep(sys, event.run, event.move, sys', event.pc);
    } else if event.CheckFails? {
      CheckFailsStep(sys, event.check, sys');
    } else {
      CheckLogsStep(sys, event.check, sys');
    }
  }

  // ---- every run of the system ----

  datatype Trace = Trace(states: seq<System>, events: seq<Event>) {
    /** A run from the very beginning. */
    ghost predicate Valid() {
      Legal() && Initial(states[0])
    }

    /** A run from any state. */
    ghost predicate Legal() {
      && |states| == |events| + 1
      && forall i :: 0 <= i < |events| ==> StepAt(i)
    }

    ghost predicate StepAt(i: nat)
      requires |states| == |events| + 1 && i < |events|
    {
      Next(states[i], events[i], states[i + 1])
    }

    function Last(): System
      requires |states| > 0
    {
      states[|states| - 1]
    }

    function Then(event: Event, sys: System): Trace {
      Trace(states + [sys], events + [event])
    }

    /** No pull among the first `n` steps stops half-way. */
    predicate WholeUpTo(n: nat)
      requires n <= |events|
    {
      forall i :: 0 <= i < n && events[i].ServiceCall? ==> Whole(events[i].call)
    }
  }

  /** A run can go on with any step that is possible in its last state. */
  lemma Go(t: Trace, event: Event, sys': System)
    requires t.Legal() && Next(t.Last(), event, sys')
    ensures var t' := t.Then(event, sys');
            t'.Legal() && t'.states[0] == t.states[0] && t'.Last() == sys' && t'.events == t.events + [event]
  {
    var t' := t.Then(event, sys');
    forall i | 0 <= i < |t'.events| ensures t'.StepAt(i) {
      if i < |t.events| {
        assert t.StepAt(i);
      }
    }
  }

  ghost predicate Extended(t: Trace, event: Event, t': Trace) {
    t'.Legal() && |t.states| > 0 && t'.states[0] == t.states[0] && t'.events == t.events + [event]
  }

  /** A run of no steps. */
  function Here(sys: System): (t: Trace)
    ensures t.Legal() && t.states[0] == t.Last() == sys && t.events == []
  {
    Trace([sys], [])
  }

  lemma InitialInv(sys: System)
    requires Initial(sys)
    ensures Inv(sys) && Bound(sys.store)
  {
    EmptyKept();
  }

  /** The invariant holds in every reachable state. */
  lemma {:induction false} EveryStateKept(t: Trace, n: nat)
    requires t.Valid() && n < |t.states|
    ensures Inv(t.states[n])
    ensures t.WholeUpTo(n) ==> Bound(t.states[n].store)
  {
    if n == 0 {
      InitialInv(t.states[0]);
    } else {
      EveryStateKept(t, n - 1);
      assert t.StepAt(n - 1);
      NextKeepsInv(t.states[n - 1], t.events[n - 1], t.states[n]);
    }
  }
}
