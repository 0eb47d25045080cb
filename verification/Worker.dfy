/**
 * The worker: it fills its slots with claimed jobs, runs a job over its device and re-verifies disks. A job run
 * returns what it did twice over: as a path of the runner's state machine, for what it does to the store, and as
 * a run of the crash machine, for what it does to the device. Both continue where earlier lifetimes stopped.
 */
module WorkerModel {
  import opened Domain
  import opened StoreModel
  import opened RunnerModel
  import opened MemoryStore
  import opened Engine
  import CM = CrashMachine
  import CertNumber
  import Keystream
  import Sampling
  import Upkeep
  import Finality
  import opened Outcomes
  import opened Reverifications

  /** A worker's configuration; zero chunk and step sizes stand for the defaults. */
  datatype Config = Config(workers: nat, staleAfter: nat, chunk: nat, step: nat)

  const FAILED: Run := Run(0, false, 0, Full, 0, 0, RunFailed)

  function CursorOf(s: Store, job: Id): Option<CM.Cursor> {
    if job in s.checkpoints then Some(CM.Cursor(s.checkpoints[job].pass, s.checkpoints[job].offset)) else None
  }

  /** No process works on the job: its device and its checkpoint row are where the run `t` of all its lifetimes left them. */
  ghost predicate Rests(plan: CM.Plan, t: CM.Trace, dev: Device, st: Memory, job: Id, first: CM.Machine)
    reads dev, dev.bytes, st
  {
    && plan.Valid() && t.Valid(plan) && t.First() == first && CM.Init(plan, first)
    && dev.Valid() && t.Last() == CM.Machine(dev.media, CursorOf(st.View(), job), CM.Off)
  }

  /** The run performed these store calls, from the claim up to the present store. */
  ghost predicate Performed(path: Path, r: Runner, entry: Store, s: Store, pc: Pc) {
    path.Valid(r) && path.states[0] == (entry, Claimed) && path.Last() == (s, pc)
  }

  /** What the moves of a run say about the device. */
  ghost predicate Truthful(path: Path, plan: CM.Plan, dev: Device, res: VerifyResult)
    reads dev, dev.bytes
  {
    forall i :: 0 <= i < |path.moves| ==>
      && (path.moves[i].SaveVerified? ==>
            && path.moves[i].size == dev.bytes.Length && path.moves[i].bytes == res.bytes && res.mismatches == 0
            && Examined(plan, dev.bytes[..], res, 0.0)
            && (dev.reliable || plan.std.mode == Full ==> Wiped(plan, dev.bytes[..], res)))
      && (path.moves[i].MismatchFound? ==> !dev.reliable && path.moves[i].run.mismatches == res.mismatches)
      && (path.moves[i].Record? ==> path.moves[i].run.wrote == dev.bytes.Length && path.moves[i].run.verifyBytes == res.bytes)
  }

  /**
   * What the world does to a run: whether it is neither cancelled nor killed, whether its device is permitted and can
   * be opened, and whether its reports get stored.
   */
  datatype Fate = Fate(calm: bool, allowed: bool, available: bool, uploads: bool)

  method Dies(calm: bool) returns (died: bool)
    ensures calm ==> !died
  {
    died := *;
    died := died && !calm;
  }

  /** The run has come to its end, with this move. */
  ghost predicate Over(path: Path, last: Move) {
    |path.moves| > 0 && |path.states| == |path.moves| + 1 && path.Last().1 == Gone && path.moves[|path.moves| - 1] == last
  }

  /** The moves with which a verified run ends. It is left without a certificate only for a reason. */
  ghost predicate EndsVerified(path: Path, r: Runner, uploads: bool) {
    && |path.moves| > 0
    && var last := path.moves[|path.moves| - 1];
       && Over(path, last) && PastVerdict(last)
       && (last == CertificateFails ==> !uploads || r.diskRow.asset !in path.states[|path.moves| - 1].0.assets)
  }

  lemma OverVerified(path: Path, r: Runner, uploads: bool, last: Move)
    requires Over(path, last) && PastVerdict(last) && last != CertificateFails
    ensures EndsVerified(path, r, uploads)
  {}

  lemma GoneIsOver(path: Path, last: Move, s: Store)
    requires |path.states| == |path.moves| + 1
    ensures Over(path.Then(last, s, Gone), last)
  {}

  lemma FailedIsVerified(path: Path, r: Runner, entry: Store, s: Store, pc: Pc, uploads: bool)
    requires Performed(path, r, entry, s, pc) && (!uploads || r.diskRow.asset !in s.assets)
    ensures EndsVerified(path.Then(CertificateFails, s, Gone), r, uploads)
  {}

  predicate PastVerdict(move: Move) {
    move == DiskVerifiedMove || move.Certify? || move == CertificateFails || move == ListDisks || move == AssetDone
  }

  predicate Closing(move: Move) {
    move.SaveVerified? || move.MismatchFound? || move.Record?
  }

  /** Up to the end of the engine's work a run has neither passed nor failed verification. */
  lemma {:induction false} NothingClosedYet(path: Path, r: Runner, n: nat)
    requires path.Valid(r) && n < |path.states|
    requires path.states[n].1 == Claimed || path.states[n].1 == Marked || path.states[n].1 == Working
    ensures forall i :: 0 <= i < n ==> !Closing(path.moves[i])
    decreases n
  {
    if n > 0 {
      assert Step(path.states[n - 1].0, r.(pc := path.states[n - 1].1), path.moves[n - 1], path.states[n].0, path.states[n].1);
      NothingClosedYet(path, r, n - 1);
    }
  }

  /** The path goes on from `sofar` without another verdict; if it records a run, then this one. */
  ghost predicate OpenTail(sofar: Path, path: Path, run: Run) {
    && |sofar.moves| <= |path.moves| && sofar.moves == path.moves[..|sofar.moves|]
    && forall i :: |sofar.moves| <= i < |path.moves| ==> Quiet(path.moves[i], run)
  }

  predicate Quiet(move: Move, run: Run) {
    !Closing(move) || (move.Record? && move.run == run)
  }

  /** A verified run ends: its last report puts the checkpoint at the end of the last pass. */
  ghost function EndOfRun(plan: CM.Plan, t: CM.Trace, saved: bool): (t': CM.Trace)
    requires plan.Valid() && t.Valid(plan) && t.Last().proc == CM.Verifying
    ensures t'.Valid(plan) && t'.First() == t.First()
    ensures t'.Last() == CM.Machine(t.Last().media, if saved then Some(CM.Cursor(plan.Final(), plan.Size())) else t.Last().row, CM.Off)
  {
    if saved then
      Stop(plan, Extend(plan, t, CM.VerifySave(plan.Size()), t.Last().(row := Some(CM.Cursor(plan.Final(), plan.Size())))))
    else Stop(plan, t)
  }

  /** The run that a verified job records. */
  function PassedRun(resumed: bool, size: nat, res: VerifyResult): Run {
    Run(0, resumed, size, res.mode, res.bytes, 0, RunVerified)
  }

  /** One more move: the verdict that all `size` bytes were written and `bytes` of them verified. */
  ghost predicate SavesVerdict(sofar: Path, saved: Path, size: nat, bytes: nat) {
    && |saved.moves| == |sofar.moves| + 1 && saved.moves[..|sofar.moves|] == sofar.moves
    && var move := saved.moves[|sofar.moves|];
       move.SaveVerified? && move.size == size && move.bytes == bytes
  }

  lemma PassedIsTruthful(sofar: Path, saved: Path, path: Path, run: Run, plan: CM.Plan, dev: Device, res: VerifyResult)
    requires forall i :: 0 <= i < |sofar.moves| ==> !Closing(sofar.moves[i])
    requires SavesVerdict(sofar, saved, dev.bytes.Length, res.bytes) && OpenTail(saved, path, run) && res.mismatches == 0
    requires run.wrote == dev.bytes.Length && run.verifyBytes == res.bytes
    requires Examined(plan, dev.bytes[..], res, 0.0)
    requires dev.reliable || plan.std.mode == Full ==> Wiped(plan, dev.bytes[..], res)
    ensures Truthful(path, plan, dev, res)
  {
    forall i | 0 <= i < |sofar.moves| ensures !Closing(path.moves[i]) {
      assert path.moves[i] == saved.moves[i] == sofar.moves[i];
    }
    assert path.moves[|sofar.moves|] == saved.moves[|sofar.moves|];
  }

  lemma PathThen(path: Path, r: Runner, entry: Store, s: Store, pc: Pc, move: Move, s': Store, pc': Pc)
    requires Performed(path, r, entry, s, pc) && Step(s, r.(pc := pc), move, s', pc')
    ensures Performed(path.Then(move, s', pc'), r, entry, s', pc')
    ensures forall sofar, run :: OpenTail(sofar, path, run) && Quiet(move, run) ==> OpenTail(sofar, path.Then(move, s', pc'), run)
  {}

  // ---- what the moves of a run add up to ----

  lemma {:induction false} VerdictBefore(path: Path, r: Runner, n: nat) returns (k: nat)
    requires path.Valid(r) && n < |path.states| && path.states[0].1 == Claimed && BytesOf(path.states[n].1).Some?
    ensures k < n && path.moves[k].SaveVerified? && path.moves[k].bytes == BytesOf(path.states[n].1).value
    decreases n
  {
    assert Step(path.states[n - 1].0, r.(pc := path.states[n - 1].1), path.moves[n - 1], path.states[n].0, path.states[n].1);
    if path.moves[n - 1].SaveVerified? {
      k := n - 1;
    } else {
      k := VerdictBefore(path, r, n - 1);
    }
  }

  /**
   * From the device to the certificate: a run that stores a certificate has wiped the device it names, and a full
   * verification covered every byte, as many as the certificate says. For a sampled standard on an unreliable device
   * the certificate means that every byte of every window is right.
   */
  lemma CertificateMeansWiped(path: Path, r: Runner, i: nat, plan: CM.Plan, dev: Device, res: VerifyResult, certNo: string)
    returns (spans: seq<Sampling.Span>)
    requires path.Valid(r) && i < |path.moves| && path.states[0].1 == Claimed && Truthful(path, plan, dev, res)
    requires certNo in path.states[i + 1].0.certs && certNo !in path.states[i].0.certs
    ensures dev.reliable || plan.std.mode == Full ==> Wiped(plan, dev.bytes[..], res)
    ensures plan.Valid() && dev.bytes.Length == plan.Size()
    ensures Inspected(plan, dev.bytes[..], spans, res, 0.0) && AllRight(plan, dev.bytes[..], spans)
    ensures path.states[i + 1].0.certs[certNo].job == r.job && path.states[i + 1].0.certs[certNo].verifyBytes == res.bytes
  {
    assert Step(path.states[i].0, r.(pc := path.states[i].1), path.moves[i], path.states[i + 1].0, path.states[i + 1].1);
    CertifyAdds(path.states[i].0, r.(pc := path.states[i].1), path.moves[i], path.states[i + 1].0, path.states[i + 1].1, certNo);
    var k := VerdictBefore(path, r, i);
    spans :| Inspected(plan, dev.bytes[..], spans, res, 0.0);
  }

  ghost predicate InStep(s: Store, r: Runner) {
    Upkeep.Kept(s) && (r.pc != Gone ==> Finality.Stands(s, r))
  }

  /** A run left alone keeps the invariant of the store at every point where it can be cut short. */
  lemma {:induction false} RunKeepsStore(path: Path, r: Runner, n: nat)
    requires path.Valid(r) && n < |path.states| && InStep(path.states[0].0, r.(pc := path.states[0].1))
    ensures InStep(path.states[n].0, r.(pc := path.states[n].1))
    decreases n
  {
    if n > 0 {
      RunKeepsStore(path, r, n - 1);
      StepKeepsInStep(path, r, n);
    }
  }

  lemma StepKeepsInStep(path: Path, r: Runner, n: nat)
    requires path.Valid(r) && 0 < n < |path.states| && InStep(path.states[n - 1].0, r.(pc := path.states[n - 1].1))
    ensures InStep(path.states[n].0, r.(pc := path.states[n].1))
  {
    var before, after := path.states[n - 1], path.states[n];
    var now := r.(pc := before.1);
    MoveKeepsInStep(before.0, now, path.moves[n - 1], after.0, after.1);
    assert now.(pc := after.1) == r.(pc := after.1);
  }

  lemma MoveKeepsInStep(s: Store, r: Runner, move: Move, s': Store, pc: Pc)
    requires InStep(s, r) && Step(s, r, move, s', pc)
    ensures InStep(s', r.(pc := pc))
  {
    Upkeep.MoveKeeps(s, r, move, s', pc);
    Finality.MoveKeepsFinal(s, r, move, s', pc);
  }

  /**
   * How a run ends that nobody disturbs. It fails its job before it touches the disk; or is interrupted or fails while
   * the disk is being erased; or finds a difference and fails both; or is verified, with its disk, and then either gets
   * no certificate, or gets one and leaves its asset to others, or takes the asset to erasure verified as the last.
   * Before that the rows of job, disk and asset tell how far it has come.
   */
  lemma {:induction false} RunOutcome(path: Path, r: Runner, n: nat)
    requires path.Valid(r) && n < |path.states| && path.states[0].1 == Claimed && InStep(path.states[0].0, r.(pc := Claimed))
    requires r.job in path.states[0].0.jobs && InFlight(path.states[0].0.jobs[r.job].status)
    ensures path.states[n].1 != Gone ==> Shows(path.states[0].0, path.states[n].0, r.(pc := path.states[n].1))
    ensures path.states[n].1 == Gone ==> n > 0 && Ends(path.states[0].0, path.states[n].0, r, path.moves[n - 1])
    decreases n
  {
    if n > 0 {
      RunOutcome(path, r, n - 1);
      OutcomeNext(path, r, n);
    }
  }

  lemma OutcomeNext(path: Path, r: Runner, n: nat)
    requires path.Valid(r) && 0 < n < |path.states| && InStep(path.states[0].0, r.(pc := path.states[0].1))
    requires path.states[n - 1].1 != Gone ==> Shows(path.states[0].0, path.states[n - 1].0, r.(pc := path.states[n - 1].1))
    ensures path.states[n].1 != Gone ==> Shows(path.states[0].0, path.states[n].0, r.(pc := path.states[n].1))
    ensures path.states[n].1 == Gone ==> Ends(path.states[0].0, path.states[n].0, r, path.moves[n - 1])
  {
    RunKeepsStore(path, r, n - 1);
    OutcomeStep(path, r, n);
  }

  lemma OutcomeStep(path: Path, r: Runner, n: nat)
    requires path.Valid(r) && 0 < n < |path.states| && InStep(path.states[n - 1].0, r.(pc := path.states[n - 1].1))
    requires path.states[n - 1].1 != Gone ==> Shows(path.states[0].0, path.states[n - 1].0, r.(pc := path.states[n - 1].1))
    ensures path.states[n].1 != Gone ==> Shows(path.states[0].0, path.states[n].0, r.(pc := path.states[n].1))
    ensures path.states[n].1 == Gone ==> Ends(path.states[0].0, path.states[n].0, r, path.moves[n - 1])
  {
    var before, after := path.states[n - 1], path.states[n];
    var now := r.(pc := before.1);
    MoveShows(path.states[0].0, before.0, now, path.moves[n - 1], after.0, after.1);
    assert now.(pc := after.1) == r.(pc := after.1);
    SameEnds(path.states[0].0, after.0, now, r, path.moves[n - 1]);
  }

  lemma SameEnds(s0: Store, s: Store, r: Runner, r': Runner, last: Move)
    requires r' == r.(pc := r'.pc)
    ensures Ends(s0, s, r, last) == Ends(s0, s, r', last)
  {}

  class Worker {
    const st: Memory
    const inst: string
    const name: string
    const cfg: Config
    const streams: Id -> nat -> Keystream.Keystream
    var busy: nat
    var starting: bool

    constructor (st: Memory, inst: string, name: string, cfg: Config, streams: Id -> nat -> Keystream.Keystream)
      ensures this.st == st && this.inst == inst && this.name == name && this.cfg == cfg
      ensures busy == 0 && starting
    {
      this.st, this.inst, this.name, this.cfg, this.streams := st, inst, name, cfg, streams;
      busy, starting := 0, true;
    }

    // ---- the scheduler ----

    /** The run's job is locked by this worker and in flight, as the run read it. */
    predicate Holds(s: Store, r: Runner) {
      && r.inst == inst && r.pc == Claimed && r.job in s.jobs && s.jobs[r.job] == r.jobRow
      && r.jobRow.lockedBy == inst && InFlight(r.jobRow.status)
    }

    /** A pending job, or one in flight that somebody else had locked. */
    predicate TakenFrom(s: Store, j: Id) {
      j in s.jobs && (s.jobs[j].status == JobPending || (InFlight(s.jobs[j].status) && s.jobs[j].lockedBy != inst))
    }

    /** From `before` to `s` exactly the claimed jobs were taken, each once. */
    ghost predicate Tick(before: Store, s: Store, claimed: seq<Runner>) {
      && s.jobs.Keys == before.jobs.Keys && s.checkpoints == before.checkpoints && s.disks == before.disks
      && (forall i :: 0 <= i < |claimed| ==> Holds(s, claimed[i]) && TakenFrom(before, claimed[i].job))
      && (forall i, k :: 0 <= i < k < |claimed| ==> claimed[i].job != claimed[k].job)
      && (forall j :: j in before.jobs && s.jobs[j] != before.jobs[j] ==> exists i :: 0 <= i < |claimed| && claimed[i].job == j)
    }

    lemma TickNext(before: Store, s: Store, claimed: seq<Runner>, r: Runner, s': Store, stale: nat, now: nat)
      requires Tick(before, s, claimed) && r.job in s.jobs && Eligible(s, r.job, inst, stale, now)
      requires s' == Claim(s, r.job, inst, now) && r.inst == inst && r.pc == Claimed && r.jobRow == s'.jobs[r.job]
      ensures Tick(before, s', claimed + [r])
    {
      var more := claimed + [r];
      assert more[|claimed|] == r;
      forall i | 0 <= i < |claimed| ensures claimed[i].job != r.job {
        assert Holds(s, claimed[i]);
      }
      ChangedIsClaimed(before, s, claimed, r, s');
    }

    lemma ChangedIsClaimed(before: Store, s: Store, claimed: seq<Runner>, r: Runner, s': Store)
      requires Tick(before, s, claimed) && s'.jobs.Keys == s.jobs.Keys
      requires forall j :: j in s.jobs && j != r.job ==> s'.jobs[j] == s.jobs[j]
      ensures forall j :: j in before.jobs && s'.jobs[j] != before.jobs[j] ==>
                exists i :: 0 <= i < |claimed + [r]| && (claimed + [r])[i].job == j
    {
      var more := claimed + [r];
      forall j | j in before.jobs && s'.jobs[j] != before.jobs[j] ensures exists i :: 0 <= i < |more| && more[i].job == j {
        if j == r.job {
          assert more[|claimed|].job == j;
        } else {
          var i :| 0 <= i < |claimed| && claimed[i].job == j;
          assert more[i].job == j;
        }
      }
    }

    /**
     * Claims one job per free slot. It stops when all slots are taken or nothing can be claimed; the jobs of
     * one tick are different, and every one of them is then locked by this worker.
     */
    method FillSlots(now: nat) returns (claimed: seq<Runner>, ghost last: nat, ghost staleAfter: nat)
      requires busy <= cfg.workers
      modifies this, st
      ensures busy == old(busy) + |claimed| <= cfg.workers
      ensures Tick(old(st.View()), st.View(), claimed)
      ensures staleAfter == cfg.staleAfter || (staleAfter == 0 && old(starting))
      ensures busy < cfg.workers ==> forall j :: j in st.jobs ==> !Eligible(st.View(), j, inst, staleAfter, last)
    {
      claimed := [];
      var clock: nat := now;
      last, staleAfter := now, cfg.staleAfter;
      while busy < cfg.workers
        invariant busy == old(busy) + |claimed| <= cfg.workers && (starting ==> old(starting))
        invariant Tick(old(st.View()), st.View(), claimed)
        invariant staleAfter == cfg.staleAfter || (staleAfter == 0 && old(starting))
        decreases cfg.workers - busy
      {
        busy := busy + 1; // occupy the slot before asking the store
        var graceOver: bool := *;
        if graceOver {
          starting := false;
        }
        var later: nat :| later >= clock;
        clock := later;
        var stale := if starting then 0 else cfg.staleAfter;
        last, staleAfter := clock, stale;
        ghost var s := st.View();
        var picked := st.AcquireNextJob(inst, stale, clock);
        if picked.None? {
          busy := busy - 1;
          return;
        }
        var r := NewRunner(picked.value);
        TickNext(old(st.View()), s, claimed, r, st.View(), stale, clock);
        claimed := claimed + [r];
      }
    }

    method NewRunner(j: Id) returns (r: Runner)
      requires j in st.jobs
      ensures r.inst == inst && r.name == name && r.job == j && r.pc == Claimed && r.jobRow == st.jobs[j]
      ensures st.jobs[j].disk in st.disks ==> r.diskRow == st.disks[st.jobs[j].disk]
    {
      var job := st.jobs[j];
      var disk := if job.disk in st.disks then st.disks[job.disk] else Disk("", "", "", DiskPulled, "");
      r := Runner(inst, name, j, job, disk, Claimed);
    }

    // ---- one job run ----

    function OptionsFor(job: Id, std: Standard, resume: CM.Cursor, draw: nat -> nat): Options {
      Options(std, streams(job), cfg.chunk, cfg.step, resume.pass, resume.offset, 0.0, draw)
    }

    /** The run can get as far as writing. */
    predicate Ready(r: Runner, dev: Device) {
      r.jobRow.standard in STANDARDS && dev.bytes.Length > 0
    }

    /** `plan` is what the job is to do, and its device and checkpoint are where `t` left them. */
    ghost predicate Resumable(r: Runner, dev: Device, plan: CM.Plan, t: CM.Trace, first: CM.Machine)
      reads dev, dev.bytes, st
    {
      Ready(r, dev) ==> Rests(plan, t, dev, st, r.job, first) && Planned(r, plan)
    }

    /** The plan is that of the job's standard and keystreams and of the configured chunks and checkpoints. */
    ghost predicate Planned(r: Runner, plan: CM.Plan)
      requires r.jobRow.standard in STANDARDS
    {
      plan.Valid() && Serves(Normalized(OptionsFor(r.job, STANDARDS[r.jobRow.standard], CM.Cursor(0, 0), n => 0)), plan)
    }

    /** failJob: ends the job and leaves its disk as it is. */
    method FailJob(r: Runner, ghost path: Path, ghost entry: Store, ghost pc: Pc) returns (ghost path': Path)
      requires Performed(path, r, entry, st.View(), pc) && (pc == Claimed || pc == Working)
      modifies st
      ensures Performed(path', r, entry, st.View(), Gone) && CursorOf(st.View(), r.job) == old(CursorOf(st.View(), r.job))
      ensures path' == path.Then(if pc == Claimed then FailBefore(FAILED) else FailRun(FAILED), st.View(), Gone)
    {
      ghost var s := st.View();
      var out := st.CompleteJob(r.job, JobFailed, FAILED);
      ghost var move := if pc == Claimed then FailBefore(FAILED) else FailRun(FAILED);
      PathThen(path, r, entry, s, pc, move, st.View(), Gone);
      path' := path.Then(move, st.View(), Gone);
    }

    /**
     * Runs a claimed job. Its store calls are a path of the runner's state machine from the claim on; its device
     * actions continue the run of the crash machine of the job's earlier lifetimes; and it passes verification
     * only on a device that has been wiped, and fails it only on an unreliable one. Left alone, it comes to its end:
     * a refused or unavailable device fails the job, and otherwise a steady device is wiped and the run ends verified,
     * or failed with its disk if a difference was found.
     */
    method RunJob(r: Runner, dev: Device, day: string, draw: nat -> nat, fate: Fate,
                  ghost plan: CM.Plan, ghost before: CM.Trace, ghost first: CM.Machine)
      returns (ghost path: Path, ghost t: CM.Trace, res: VerifyResult)
      requires r.pc == Claimed && InFlight(r.jobRow.status) && CertNumber.IsDay(day)
      requires Resumable(r, dev, plan, before, first)
      modifies st, dev`media, dev.bytes
      ensures |path.states| > 0 && Performed(path, r, old(st.View()), st.View(), path.Last().1)
      ensures Resumable(r, dev, plan, t, first) && Truthful(path, plan, dev, res)
      ensures r.jobRow.standard !in STANDARDS || !fate.allowed ==> Over(path, FailBefore(FAILED))
      ensures r.jobRow.standard in STANDARDS && fate.calm && fate.allowed && r.job in old(st.jobs) ==>
                && (!fate.available || dev.bytes.Length == 0 ==> Over(path, FailRun(FAILED)))
                && (fate.available && Ready(r, dev) && dev.steady && CM.GridInRange(plan) ==> Carried(path, r, dev, res, fate.uploads))
    {
      ghost var entry := st.View();
      path := Path([(entry, Claimed)], []);
      t := before;
      res := VerifyResult(Full, 0, 0, []);
      if r.jobRow.standard !in STANDARDS || !fate.allowed {
        path := FailJob(r, path, entry, Claimed);
        return;
      }
      // only a job that some lifetime has worked on before has a checkpoint
      var resume, resumed := CM.Cursor(0, 0), false;
      if r.job in st.checkpoints && r.jobRow.status != JobPending {
        resume, resumed := CM.Cursor(st.checkpoints[r.job].pass, st.checkpoints[r.job].offset), true;
      }
      var started;
      started, path := StartJob(r, fate.calm, path, entry);
      if !started {
        return;
      }
      path, t, res := RunStarted(r, dev, day, draw, resume, resumed, fate, path, entry, plan, before, first);
    }

    /** Opens the device and works on it. */
    method RunStarted(r: Runner, dev: Device, day: string, draw: nat -> nat, resume: CM.Cursor, resumed: bool, fate: Fate,
                      ghost sofar: Path, ghost entry: Store, ghost plan: CM.Plan, ghost before: CM.Trace, ghost first: CM.Machine)
      returns (ghost path: Path, ghost t: CM.Trace, res: VerifyResult)
      requires Performed(sofar, r, entry, st.View(), Working) && r.jobRow.standard in STANDARDS && CertNumber.IsDay(day)
      requires Resumable(r, dev, plan, before, first) && r.job in st.jobs
      requires resume == match CursorOf(st.View(), r.job) case None => CM.Cursor(0, 0) case Some(c) => c
      requires forall i :: 0 <= i < |sofar.moves| ==> !Closing(sofar.moves[i])
      modifies st, dev`media, dev.bytes
      ensures |path.states| > 0 && Performed(path, r, entry, st.View(), path.Last().1)
      ensures Resumable(r, dev, plan, t, first) && Truthful(path, plan, dev, res)
      ensures fate.calm && (!fate.available || dev.bytes.Length == 0) ==> Over(path, FailRun(FAILED))
      ensures fate.calm && fate.available && Ready(r, dev) && dev.steady && CM.GridInRange(plan) ==>
                Carried(path, r, dev, res, fate.uploads)
    {
      t, res := before, VerifyResult(Full, 0, 0, []);
      if fate.available {
        path, t, res := Execute(r, dev, day, draw, resume, resumed, fate, sofar, entry, plan, before, first);
      } else {
        path := FailJob(r, sofar, entry, Working);
      }
    }

    /** The run has verified its device, or has failed job and disk because it found a difference, on an unreliable device. */
    ghost predicate Carried(path: Path, r: Runner, dev: Device, res: VerifyResult, uploads: bool) {
      if res.mismatches > 0 then !dev.reliable && Over(path, FailDisk) else EndsVerified(path, r, uploads)
    }

    /** Marks the job running and its disk as being erased. */
    method StartJob(r: Runner, calm: bool, ghost sofar: Path, ghost entry: Store) returns (started: bool, ghost path: Path)
      requires Performed(sofar, r, entry, st.View(), Claimed) && |sofar.moves| == 0 && r.jobRow.standard in STANDARDS
      modifies st
      ensures |path.states| > 0 && Performed(path, r, entry, st.View(), path.Last().1)
      ensures st.checkpoints == old(st.checkpoints) && (started ==> path.Last().1 == Working)
      ensures forall i :: 0 <= i < |path.moves| ==> !Closing(path.moves[i])
      ensures (started ==> r.job in st.jobs) && (calm && r.job in old(st.jobs) ==> started)
    {
      path := sofar;
      var died := Dies(calm);
      if died {
        return false, path;
      }
      var now: nat := *;
      ghost var s := st.View();
      var out := st.MarkJobRunning(r.job, r.jobRow.attempt, now);
      path := Marking(path, r, entry, s, now, out, st.View());
      died := Dies(calm);
      if out != Ok || died {
        return false, path;
      }
      path := MarkErasing(r, path, entry);
      return true, path;
    }

    /** The disk update is best effort: the run goes on whatever it returns. */
    method MarkErasing(r: Runner, ghost sofar: Path, ghost entry: Store) returns (ghost path: Path)
      requires Performed(sofar, r, entry, st.View(), Marked)
      modifies st
      ensures Performed(path, r, entry, st.View(), Working) && st.checkpoints == old(st.checkpoints) && st.jobs == old(st.jobs)
      ensures path == sofar.Then(MarkDisk, st.View(), Working)
    {
      ghost var s := st.View();
      var out := st.UpdateDiskStatus(r.jobRow.disk, DiskErasing, r.name);
      PathThen(sofar, r, entry, s, Marked, MarkDisk, st.View(), Working);
      path := sofar.Then(MarkDisk, st.View(), Working);
    }

    ghost method Marking(path: Path, r: Runner, entry: Store, s: Store, now: nat, out: Outcome, s': Store) returns (path': Path)
      requires Performed(path, r, entry, s, Claimed) && r.jobRow.standard in STANDARDS
      requires Reply(s', out) == StoreModel.MarkJobRunning(s, r.job, r.jobRow.attempt, now)
      ensures path' == path.Then(MarkRunning(now), s', if out == Ok then Marked else Gone)
      ensures Performed(path', r, entry, s', if out == Ok then Marked else Gone)
    {
      PathThen(path, r, entry, s, Claimed, MarkRunning(now), s', if out == Ok then Marked else Gone);
      path' := path.Then(MarkRunning(now), s', if out == Ok then Marked else Gone);
    }

    /** The engine's part of a run, and what follows from its outcome. */
    method Execute(r: Runner, dev: Device, day: string, draw: nat -> nat, resume: CM.Cursor, resumed: bool, fate: Fate,
                   ghost sofar: Path, ghost entry: Store, ghost plan: CM.Plan, ghost before: CM.Trace, ghost first: CM.Machine)
      returns (ghost path: Path, ghost t: CM.Trace, res: VerifyResult)
      requires Performed(sofar, r, entry, st.View(), Working) && r.jobRow.standard in STANDARDS && CertNumber.IsDay(day)
      requires Resumable(r, dev, plan, before, first) && r.job in st.jobs
      requires resume == match CursorOf(st.View(), r.job) case None => CM.Cursor(0, 0) case Some(c) => c
      modifies st, dev`media, dev.bytes
      ensures |path.states| > 0 && Performed(path, r, entry, st.View(), path.Last().1)
      ensures Resumable(r, dev, plan, t, first) && Truthful(path, plan, dev, res)
      ensures fate.calm && dev.bytes.Length == 0 ==> Over(path, FailRun(FAILED))
      ensures fate.calm && Ready(r, dev) && dev.steady && CM.GridInRange(plan) ==> Carried(path, r, dev, res, fate.uploads)
    {
      var std := STANDARDS[r.jobRow.standard];
      var sink := new ProgressSink(st, r.job, fate.calm, r, sofar);
      var ending;
      ending, res, t := RunEngine(dev, OptionsFor(r.job, std, resume, draw), sink, plan, before, first, (entry, Claimed));
      NothingClosedYet(sink.path, r, |sink.path.states| - 1);
      path, t := Conclude(r, dev, day, resumed, fate, sink.wrote, ending, res, sink.path, entry, plan, t, first);
    }

    /** What follows from the outcome of the engine. */
    method Conclude(r: Runner, dev: Device, day: string, resumed: bool, fate: Fate, wrote: nat, ending: Ending, res: VerifyResult,
                    ghost sofar: Path, ghost entry: Store, ghost plan: CM.Plan, ghost before: CM.Trace, ghost first: CM.Machine)
      returns (ghost path: Path, ghost t: CM.Trace)
      requires Performed(sofar, r, entry, st.View(), Working) && r.jobRow.standard in STANDARDS && CertNumber.IsDay(day)
      requires forall i :: 0 <= i < |sofar.moves| ==> !Closing(sofar.moves[i])
      requires ending != Completed ==> Resumable(r, dev, plan, before, first)
      requires ending == Completed ==>
                 && Ready(r, dev) && Established(plan, dev, res, 0.0) && Planned(r, plan) && plan.Size() == dev.bytes.Length
                 && before.Valid(plan) && before.First() == first && CM.Init(plan, first) && dev.Valid()
                 && before.Last() == CM.Machine(dev.media, CursorOf(st.View(), r.job), CM.Verifying)
      modifies st
      ensures |path.states| > 0 && Performed(path, r, entry, st.View(), path.Last().1)
      ensures Resumable(r, dev, plan, t, first) && Truthful(path, plan, dev, res)
      ensures fate.calm && ending == Completed ==> Carried(path, r, dev, res, fate.uploads)
      ensures fate.calm && ending == Errored ==> Over(path, FailRun(FAILED))
    {
      path, t := sofar, before;
      match ending {
        case Died =>
        case Completed =>
          path, t := Judge(r, dev, day, resumed, fate, wrote, res, path, entry, plan, t, first);
        case _ =>
          var stopping;
          stopping, path := Interrupted(r, fate.calm, ending, resumed, wrote, path, entry);
      }
    }

    /** The engine has come to its end: the verification decides. */
    method Judge(r: Runner, dev: Device, day: string, resumed: bool, fate: Fate, wrote: nat, res: VerifyResult,
                 ghost sofar: Path, ghost entry: Store, ghost plan: CM.Plan, ghost before: CM.Trace, ghost first: CM.Machine)
      returns (ghost path: Path, ghost t: CM.Trace)
      requires Performed(sofar, r, entry, st.View(), Working) && r.jobRow.standard in STANDARDS && CertNumber.IsDay(day)
      requires forall i :: 0 <= i < |sofar.moves| ==> !Closing(sofar.moves[i])
      requires Ready(r, dev) && Established(plan, dev, res, 0.0) && Planned(r, plan) && plan.Size() == dev.bytes.Length
      requires before.Valid(plan) && before.First() == first && CM.Init(plan, first) && dev.Valid()
      requires before.Last() == CM.Machine(dev.media, CursorOf(st.View(), r.job), CM.Verifying)
      modifies st
      ensures |path.states| > 0 && Performed(path, r, entry, st.View(), path.Last().1)
      ensures Rests(plan, t, dev, st, r.job, first) && Truthful(path, plan, dev, res)
      ensures fate.calm ==> Carried(path, r, dev, res, fate.uploads)
    {
      if res.mismatches > 0 {
        t := Stop(plan, before);
        path := Mismatched(r, resumed, fate.calm, wrote, res, sofar, entry);
      } else {
        ghost var saved;
        path, t, saved := Finalize(r, dev, day, resumed, fate, res, sofar, entry, plan, before, first);
        PassedIsTruthful(sofar, saved, path, PassedRun(resumed, dev.bytes.Length, res), plan, dev, res);
      }
    }

    /** The engine stopped before the end: cancelled runs are recorded as interrupted, others fail the job. */
    method Interrupted(r: Runner, calm: bool, ending: Ending, resumed: bool, wrote: nat, ghost sofar: Path, ghost entry: Store)
      returns (stopping: bool, ghost path: Path)
      requires Performed(sofar, r, entry, st.View(), Working)
      modifies st
      ensures Performed(path, r, entry, st.View(), Gone) && CursorOf(st.View(), r.job) == old(CursorOf(st.View(), r.job))
      ensures (ending == Cancelled ==> stopping) && (calm && ending != Cancelled ==> !stopping)
      ensures var run := Run(r.jobRow.attempt, resumed, wrote, Full, 0, 0, RunInterrupted);
              path == sofar.Then(if stopping then Move.Interrupted(run) else FailRun(FAILED), st.View(), Gone)
    {
      stopping := Dies(calm); // the context has ended meanwhile
      stopping := stopping || ending == Cancelled;
      if stopping {
        ghost var s := st.View();
        var run := Run(r.jobRow.attempt, resumed, wrote, Full, 0, 0, RunInterrupted);
        st.RecordRun(r.job, run);
        PathThen(sofar, r, entry, s, Working, Move.Interrupted(run), st.View(), Gone);
        path := sofar.Then(Move.Interrupted(run), st.View(), Gone);
      } else {
        path := FailJob(r, sofar, entry, Working);
      }
    }

    /** Verification found a difference: the job fails and its disk waits for a decision. */
    method Mismatched(r: Runner, resumed: bool, calm: bool, wrote: nat, res: VerifyResult, ghost sofar: Path, ghost entry: Store)
      returns (ghost path: Path)
      requires Performed(sofar, r, entry, st.View(), Working) && res.mismatches > 0
      modifies st
      ensures |path.states| > 0 && Performed(path, r, entry, st.View(), path.Last().1)
      ensures CursorOf(st.View(), r.job) == old(CursorOf(st.View(), r.job))
      ensures var run := Run(0, resumed, wrote, res.mode, res.bytes, res.mismatches, RunFailed);
              exists s :: path == sofar.Then(MismatchFound(run), s, FailingDisk)
                          || path == sofar.Then(MismatchFound(run), s, FailingDisk).Then(FailDisk, st.View(), Gone)
      ensures calm ==> Over(path, FailDisk)
    {
      ghost var s := st.View();
      var run := Run(0, resumed, wrote, res.mode, res.bytes, res.mismatches, RunFailed);
      var out := st.CompleteJob(r.job, JobFailed, run);
      ghost var s' := st.View();
      PathThen(sofar, r, entry, s, Working, MismatchFound(run), s', FailingDisk);
      path := sofar.Then(MismatchFound(run), s', FailingDisk);
      var died := Dies(calm);
      if died {
        return;
      }
      out := st.UpdateDiskStatus(r.jobRow.disk, DiskFailed, r.name);
      PathThen(path, r, entry, s', FailingDisk, FailDisk, st.View(), Gone);
      path := path.Then(FailDisk, st.View(), Gone);
    }

    /**
     * Verification passed: the job and its checkpoint first, then the disk, then the run, the certificate last.
     * Whatever the last call that gets through, what precedes it in this order is in the store.
     */
    method Finalize(r: Runner, dev: Device, day: string, resumed: bool, fate: Fate, res: VerifyResult, ghost sofar: Path, ghost entry: Store,
                    ghost plan: CM.Plan, ghost before: CM.Trace, ghost first: CM.Machine)
      returns (ghost path: Path, ghost t: CM.Trace, ghost saved: Path)
      requires Performed(sofar, r, entry, st.View(), Working) && r.jobRow.standard in STANDARDS && CertNumber.IsDay(day)
      requires plan.Valid() && before.Valid(plan) && before.First() == first && CM.Init(plan, first) && dev.Valid()
      requires before.Last() == CM.Machine(dev.media, CursorOf(st.View(), r.job), CM.Verifying)
      requires plan.std == STANDARDS[r.jobRow.standard] && plan.Size() == dev.bytes.Length
      requires res.mismatches == 0 && res.mode == plan.std.mode
      modifies st
      ensures |path.states| > 0 && Performed(path, r, entry, st.View(), path.Last().1)
      ensures Rests(plan, t, dev, st, r.job, first)
      ensures OpenTail(saved, path, PassedRun(resumed, dev.bytes.Length, res))
      ensures SavesVerdict(sofar, saved, dev.bytes.Length, res.bytes)
      ensures fate.calm ==> EndsVerified(path, r, fate.uploads)
    {
      var std := STANDARDS[r.jobRow.standard];
      var size := dev.bytes.Length;
      ghost var s := st.View();
      var now: nat := *;
      var out := st.SaveProgress(r.job, |std.passes| - 1, size, size, JobVerified, now);
      ghost var move := SaveVerified(size, res.bytes, now);
      PathThen(sofar, r, entry, s, Working, move, st.View(), Saved(res.bytes));
      saved := sofar.Then(move, st.View(), Saved(res.bytes));
      t := EndOfRun(plan, before, out == Ok);
      path := MarkAndRecord(r, day, resumed, fate, size, res, saved, entry);
    }

    /** After the job: the disk is marked verified, then the run is recorded, then the certificate is issued. */
    method MarkAndRecord(r: Runner, day: string, resumed: bool, fate: Fate, size: nat, res: VerifyResult, ghost sofar: Path, ghost entry: Store)
      returns (ghost path: Path)
      requires Performed(sofar, r, entry, st.View(), Saved(res.bytes)) && CertNumber.IsDay(day)
      requires r.jobRow.standard in STANDARDS && res.mode == STANDARDS[r.jobRow.standard].mode
      modifies st
      ensures |path.states| > 0 && Performed(path, r, entry, st.View(), path.Last().1)
      ensures OpenTail(sofar, path, PassedRun(resumed, size, res))
      ensures st.checkpoints == old(st.checkpoints) && (fate.calm ==> EndsVerified(path, r, fate.uploads))
    {
      path := sofar;
      var died := Dies(fate.calm);
      if died {
        return;
      }
      ghost var s := st.View();
      var out := st.UpdateDiskStatus(r.jobRow.disk, DiskVerified, r.name);
      PathThen(path, r, entry, s, Saved(res.bytes), DiskVerifiedMove, st.View(), if out == Ok then DiskMarked(res.bytes) else Gone);
      path := path.Then(DiskVerifiedMove, st.View(), if out == Ok then DiskMarked(res.bytes) else Gone);
      if out != Ok {
        GoneIsOver(sofar, DiskVerifiedMove, st.View());
        OverVerified(path, r, fate.uploads, DiskVerifiedMove);
        return;
      }
      died := Dies(fate.calm);
      if died {
        return;
      }
      path := RecordAndCertify(r, day, resumed, fate, size, res, sofar, path, entry);
    }

    /** The disk is marked: the run is recorded, then the certificate is issued. */
    method RecordAndCertify(r: Runner, day: string, resumed: bool, fate: Fate, size: nat, res: VerifyResult,
                            ghost sofar: Path, ghost marked: Path, ghost entry: Store)
      returns (ghost path: Path)
      requires Performed(marked, r, entry, st.View(), DiskMarked(res.bytes)) && CertNumber.IsDay(day)
      requires OpenTail(sofar, marked, PassedRun(resumed, size, res))
      requires r.jobRow.standard in STANDARDS && res.mode == STANDARDS[r.jobRow.standard].mode
      modifies st
      ensures |path.states| > 0 && Performed(path, r, entry, st.View(), path.Last().1)
      ensures OpenTail(sofar, path, PassedRun(resumed, size, res))
      ensures st.checkpoints == old(st.checkpoints) && (fate.calm ==> EndsVerified(path, r, fate.uploads))
    {
      ghost var s := st.View();
      var run := PassedRun(resumed, size, res);
      var out := st.CompleteJob(r.job, JobVerified, run);
      PathThen(marked, r, entry, s, DiskMarked(res.bytes), Record(run), st.View(), Recorded(res.bytes));
      path := marked.Then(Record(run), st.View(), Recorded(res.bytes));
      var died := Dies(fate.calm);
      if died {
        return;
      }
      path := Certificate(r, day, STANDARDS[r.jobRow.standard], fate, res, run, sofar, path, entry);
    }

    /** issueCertificate: rendering or uploading may fail; the asset is looked at only after the certificate is stored. */
    method Certificate(r: Runner, day: string, std: Standard, fate: Fate, res: VerifyResult, ghost run: Run, ghost sofar: Path, ghost recorded: Path,
                       ghost entry: Store)
      returns (ghost path: Path)
      requires Performed(recorded, r, entry, st.View(), Recorded(res.bytes)) && CertNumber.IsDay(day) && OpenTail(sofar, recorded, run)
      requires r.jobRow.standard in STANDARDS && std == STANDARDS[r.jobRow.standard] && res.mode == std.mode
      modifies st
      ensures |path.states| > 0 && Performed(path, r, entry, st.View(), path.Last().1)
      ensures st.checkpoints == old(st.checkpoints) && OpenTail(sofar, path, run)
      ensures fate.calm ==> EndsVerified(path, r, fate.uploads)
    {
      if r.diskRow.asset !in st.assets || !fate.uploads {
        PathThen(recorded, r, entry, st.View(), Recorded(res.bytes), CertificateFails, st.View(), Gone);
        FailedIsVerified(recorded, r, entry, st.View(), Recorded(res.bytes), fate.uploads);
        path := recorded.Then(CertificateFails, st.View(), Gone);
      } else {
        path := SaveAndFinish(r, day, std, fate, res, run, sofar, recorded, entry);
      }
    }

    /** The report is stored: the certificate row follows, then the asset. */
    method SaveAndFinish(r: Runner, day: string, std: Standard, fate: Fate, res: VerifyResult, ghost run: Run, ghost sofar: Path,
                         ghost recorded: Path, ghost entry: Store)
      returns (ghost path: Path)
      requires Performed(recorded, r, entry, st.View(), Recorded(res.bytes)) && CertNumber.IsDay(day) && OpenTail(sofar, recorded, run)
      requires r.jobRow.standard in STANDARDS && std == STANDARDS[r.jobRow.standard] && res.mode == std.mode
      requires r.diskRow.asset in st.assets
      modifies st
      ensures |path.states| > 0 && Performed(path, r, entry, st.View(), path.Last().1)
      ensures st.checkpoints == old(st.checkpoints) && OpenTail(sofar, path, run)
      ensures fate.calm ==> EndsVerified(path, r, fate.uploads)
    {
      var certNo := CertNumber.Number(day, st.assets[r.diskRow.asset].tag, r.diskRow.serial, r.jobRow.attempt);
      var c := StoreModel.Certificate(r.jobRow.disk, r.diskRow.asset, r.job, std.code, r.jobRow.attempt + 1, res.mode, res.bytes,
                                      Operator(r.jobRow));
      ghost var s := st.View();
      var out := st.SaveCertificate(certNo, c);
      PathThen(recorded, r, entry, s, Recorded(res.bytes), Certify(day), st.View(), if out == Ok then Certified else Gone);
      path := recorded.Then(Certify(day), st.View(), if out == Ok then Certified else Gone);
      if out != Ok {
        GoneIsOver(recorded, Certify(day), st.View());
        OverVerified(path, r, fate.uploads, Certify(day));
        return;
      }
      var died := Dies(fate.calm);
      if died {
        return;
      }
      ghost var done := AllDisksDone(st.View(), r.diskRow.asset);
      path := FinishRun(r, fate.calm, run, sofar, path, entry);
      if fate.calm {
        OverVerified(path, r, fate.uploads, if done then AssetDone else ListDisks);
      }
    }

    /** maybeAssetErasureDone: the listing and the move are two store calls; others may come between them. */
    method FinishRun(r: Runner, calm: bool, ghost run: Run, ghost sofar: Path, ghost certified: Path, ghost entry: Store)
      returns (ghost path: Path)
      requires Performed(certified, r, entry, st.View(), Certified) && OpenTail(sofar, certified, run)
      modifies st
      ensures |path.states| > 0 && Performed(path, r, entry, st.View(), path.Last().1)
      ensures OpenTail(sofar, path, run) && st.checkpoints == old(st.checkpoints)
      ensures calm ==> Over(path, if AllDisksDone(old(st.View()), r.diskRow.asset) then AssetDone else ListDisks)
    {
      ghost var s := st.View();
      var done := AllDone(r.diskRow.asset);
      PathThen(certified, r, entry, s, Certified, ListDisks, s, if done then Listed else Gone);
      path := certified.Then(ListDisks, s, if done then Listed else Gone);
      var died := Dies(calm);
      if !done || died {
        return;
      }
      var out := st.TransitionAsset(r.diskRow.asset, AssetErasureDone, r.name, ErasureVerified);
      PathThen(path, r, entry, s, Listed, AssetDone, st.View(), Gone);
      path := path.Then(AssetDone, st.View(), Gone);
    }

    /** Looks at the disks of an asset in an arbitrary order, up to the first that is not done. */
    method AllDone(asset: Id) returns (done: bool)
      ensures done == AllDisksDone(st.View(), asset)
    {
      var rest := st.disks.Keys;
      while rest != {}
        invariant rest <= st.disks.Keys
        invariant forall d :: d in st.disks && d !in rest && st.disks[d].asset == asset ==>
                    st.disks[d].status == DiskVerified || st.disks[d].status == DiskScrapped
        decreases rest
      {
        var d :| d in rest;
        rest := rest - {d};
        if st.disks[d].asset == asset && st.disks[d].status != DiskVerified && st.disks[d].status != DiskScrapped {
          return false;
        }
      }
      return true;
    }

    // ---- re-verification ----

    /** The newest job of a disk. */
    method LastJob(disk: Id) returns (last: Option<Id>)
      ensures last.None? <==> JobsOf(st.View(), disk) == {}
      ensures last.Some? ==> last.value in JobsOf(st.View(), disk)
                             && forall j :: j in JobsOf(st.View(), disk) ==> st.jobs[j].createdAt <= st.jobs[last.value].createdAt
    {
      last := None;
      var rest := st.jobs.Keys;
      while rest != {}
        invariant rest <= st.jobs.Keys
        invariant last.Some? ==> last.value in JobsOf(st.View(), disk)
        invariant forall j :: j in JobsOf(st.View(), disk) && j !in rest ==>
                    last.Some? && st.jobs[j].createdAt <= st.jobs[last.value].createdAt
        decreases rest
      {
        var j :| j in rest;
        rest := rest - {j};
        if st.jobs[j].disk == disk && (last.None? || st.jobs[j].createdAt > st.jobs[last.value].createdAt) {
          last := Some(j);
        }
      }
    }

    /**
     * Reads a wiped disk again and compares it with what its newest job should have left. The device is not
     * written; the disk fails exactly when a difference was found, and nothing else changes but the log. To the rest
     * of the system the call is the steps of a re-verification. Left alone, with a free slot and a steady device, it
     * comes to a result for every disk that may be checked.
     */
    method Reverify(disk: Id, operator: string, dev: Device, draw: nat -> nat, fate: Fate)
      returns (done: bool, res: VerifyResult, ghost last: Id, ghost spans: seq<Sampling.Span>)
      requires busy <= cfg.workers
      modifies this, st
      ensures busy == old(busy)
      ensures !done ==> st.View() == old(st.View())
      ensures done ==>
                && MayCheck(old(st.View()), disk)
                && last in old(st.jobs) && old(st.jobs)[last].disk == disk && old(st.jobs)[last].standard in STANDARDS
                && Exact(dev.bytes[..], Normalized(OptionsFor(last, STANDARDS[old(st.jobs)[last].standard], CM.Cursor(0, 0), draw)), spans, res)
                && Rechecked(old(st.View()), st.View(), disk, operator, res.mismatches > 0)
                && IsCheck(old(st.View()), st.View(), inst, disk, operator, res.mismatches > 0)
      ensures done ==> forall plan: CM.Plan :: Remade(plan, last, STANDARDS[old(st.jobs)[last].standard], dev.bytes.Length) ==>
                Inspected(plan, dev.bytes[..], spans, res, 0.0)
      ensures MayCheck(old(st.View()), disk) && old(busy) < cfg.workers && Checkable(old(st.View()), disk, dev, fate) ==> done
    {
      done, res, last, spans := false, VerifyResult(Full, 0, 0, []), "", [];
      if disk !in st.disks {
        return;
      }
      if st.disks[disk].status != DiskVerified && st.disks[disk].status != DiskFailed {
        return;
      }
      var job := LastJob(disk);
      if !fate.allowed || job.None? || st.jobs[job.value].standard !in STANDARDS {
        return;
      }
      if busy == cfg.workers {
        return; // waiting for a slot ends with the caller's context
      }
      busy := busy + 1;
      last := job.value;
      done, res, spans := Reread(disk, operator, dev, job.value, STANDARDS[st.jobs[job.value].standard], draw, fate);
      busy := busy - 1;
    }

    /** Nothing gets in the way of checking this disk. */
    predicate Checkable(s: Store, disk: Id, dev: Device, fate: Fate) {
      && fate.allowed && fate.available && fate.calm && dev.steady && dev.bytes.Length > 0
      && forall j :: j in JobsOf(s, disk) ==> s.jobs[j].standard in STANDARDS && Derivable(s.jobs[j].standard, dev.bytes.Length)
    }

    predicate Derivable(standard: string, size: nat)
      requires standard in STANDARDS
    {
      InReach(Normalized(OptionsFor("", STANDARDS[standard], CM.Cursor(0, 0), n => 0)), size)
    }

    /** The part of a re-verification that holds a slot. */
    method Reread(disk: Id, operator: string, dev: Device, job: Id, std: Standard, draw: nat -> nat, fate: Fate)
      returns (done: bool, res: VerifyResult, ghost spans: seq<Sampling.Span>)
      requires MayCheck(st.View(), disk) && std.code in STANDARDS && std == STANDARDS[std.code]
      modifies st
      ensures !done ==> st.View() == old(st.View())
      ensures done ==> Exact(dev.bytes[..], Normalized(OptionsFor(job, std, CM.Cursor(0, 0), draw)), spans, res)
      ensures done ==> Rechecked(old(st.View()), st.View(), disk, operator, res.mismatches > 0)
                       && IsCheck(old(st.View()), st.View(), inst, disk, operator, res.mismatches > 0)
      ensures done ==> forall plan: CM.Plan :: Remade(plan, job, std, dev.bytes.Length) ==> Inspected(plan, dev.bytes[..], spans, res, 0.0)
      ensures fate.available && fate.calm && dev.steady && dev.bytes.Length > 0 && Derivable(std.code, dev.bytes.Length) ==> done
    {
      BuiltInStandards(std.code);
      done, res, spans := false, VerifyResult(Full, 0, 0, []), [];
      if !fate.available {
        return;
      }
      var ending;
      ending, res, spans := Verify(dev, OptionsFor(job, std, CM.Cursor(0, 0), draw), fate.calm);
      if ending != Completed {
        return;
      }
      RemadeDecides(job, std, draw, dev.bytes[..], spans, res);
      LogResult(disk, operator, res.mismatches);
      done := true;
    }

    /** The disk fails if a difference was found, and the result is logged. */
    method LogResult(disk: Id, operator: string, mismatches: nat)
      requires MayCheck(st.View(), disk)
      modifies st
      ensures Rechecked(old(st.View()), st.View(), disk, operator, mismatches > 0)
      ensures IsCheck(old(st.View()), st.View(), inst, disk, operator, mismatches > 0)
    {
      if mismatches > 0 {
        var out := st.UpdateDiskStatus(disk, DiskFailed, operator);
      }
      st.AppendAudit(Audit(operator, ReverifyDisk, DiskEntity, disk));
      RecheckedIsCheck(old(st.View()), st.View(), inst, disk, operator, mismatches > 0);
    }

    /** A plan by which the job could have written a device of this size. */
    ghost predicate Remade(plan: CM.Plan, job: Id, std: Standard, size: nat) {
      plan.Valid() && plan.Size() == size && Serves(Normalized(OptionsFor(job, std, CM.Cursor(0, 0), n => 0)), plan)
    }

    lemma RemadeDecides(job: Id, std: Standard, draw: nat -> nat, bytes: seq<Keystream.Byte>, spans: seq<Sampling.Span>,
                        res: VerifyResult)
      requires |std.passes| > 0 && Exact(bytes, Normalized(OptionsFor(job, std, CM.Cursor(0, 0), draw)), spans, res)
      ensures forall plan: CM.Plan :: Remade(plan, job, std, |bytes|) ==> Inspected(plan, bytes, spans, res, 0.0)
    {
      forall plan: CM.Plan | Remade(plan, job, std, |bytes|) ensures Inspected(plan, bytes, spans, res, 0.0) {
        VerifyDecides(plan, Normalized(OptionsFor(job, std, CM.Cursor(0, 0), draw)), bytes, spans, res);
      }
    }
  }
}
