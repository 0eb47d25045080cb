/**
 * The whole system with its devices: next to every job stands the crash machine of its device. The engine of a live
 * run takes the machine's steps, the run's store calls save its checkpoints, and deaths and power losses cut it
 * short. Devices are reliable here; a machine is the record of one job, until the next job takes its device over.
 */
module WipeModel {
  import opened Domain
  import opened StoreModel
  import opened History
  import opened ServiceRules
  import opened RunnerModel
  import opened Finality
  import opened Upkeep
  import opened SystemModel
  import CM = CrashMachine

  /** What each job is to write, and where. */
  type Plans = Id -> CM.Plan

  datatype World = World(sys: System, machines: map<Id, CM.Machine>)

  datatype Deed =
    | Happens(event: Event)
    | EngineStep(run: nat, step: CM.Step)
    | Outage(job: Id)

  /** The plan of a job is that of its standard. */
  ghost predicate Fit(plans: Plans, jobs: map<Id, Job>) {
    forall j :: j in jobs ==> plans(j).Valid() && jobs[j].standard in STANDARDS && plans(j).std == STANDARDS[jobs[j].standard]
  }

  /** A job whose device nobody has touched yet has the machine of a first lifetime. */
  function MachineOf(plans: Plans, machines: map<Id, CM.Machine>, j: Id): CM.Machine
    requires plans(j).Valid()
  {
    if j in machines then machines[j]
    else CM.Machine(CM.Untouched(plans(j).original, plans(j).leftovers), None, CM.Off)
  }

  function CursorOf(s: Store, j: Id): Option<CM.Cursor> {
    if j in s.checkpoints then Some(CM.Cursor(s.checkpoints[j].pass, s.checkpoints[j].offset)) else None
  }

  ghost predicate Sized(plan: CM.Plan, m: CM.Machine) {
    plan.Valid() && |m.media| == plan.Size()
  }

  /** What a store call of a run means for the machine of its job. */
  ghost predicate Drives(plan: CM.Plan, m: CM.Machine, move: Move, m': CM.Machine)
    requires Sized(plan, m)
  {
    match move
    case MarkDisk => CM.Next(plan, m, CM.Boot, m')
    case Progress(pass, offset, _, verifying, _) =>
      if verifying then pass == plan.Final() && CM.Next(plan, m, CM.VerifySave(offset), m')
      else m.proc.Overwriting? && m.proc.pass == pass && m.proc.offset == offset && CM.Next(plan, m, CM.Save, m')
    case SaveVerified(size, bytes, _) =>
      && m.proc == CM.Verifying && size == plan.Size() && (plan.std.mode == Full ==> bytes == size)
      && m' == CM.Machine(m.media, Some(CM.Cursor(plan.Final(), size)), CM.Off)
    case Interrupted(_) => m' == m.(proc := CM.Off)
    case FailRun(_) => m' == m.(proc := CM.Off)
    case MismatchFound(_) => m' == m.(proc := CM.Off)
    case _ => m' == m
  }

  predicate WorksOn(runs: map<nat, Runner>, g: nat, j: Id) {
    g in runs && runs[g].job == j && runs[g].pc == Working
  }

  ghost predicate Worked(runs: map<nat, Runner>, j: Id) {
    exists g :: WorksOn(runs, g, j)
  }

  predicate RunOf(runs: map<nat, Runner>, g: nat, inst: string, j: Id) {
    g in runs && runs[g].job == j && runs[g].inst == inst
  }

  /** When an instance dies, so do the engines of its runs. */
  ghost function Halted(w: World, inst: string): map<Id, CM.Machine> {
    map j | j in w.machines ::
      if exists g :: RunOf(w.sys.runs, g, inst, j) then w.machines[j].(proc := CM.Off) else w.machines[j]
  }

  predicate EngineAction(step: CM.Step) {
    step.WriteChunk? || step.TornWrite? || step.SyncDue? || step.NextPass?
  }

  ghost predicate Driven(plans: Plans, w: World, j: Id, move: Move, machines': map<Id, CM.Machine>) {
    && plans(j).Valid() && Sized(plans(j), MachineOf(plans, w.machines, j))
    && j in machines' && machines' == w.machines[j := machines'[j]]
    && Drives(plans(j), MachineOf(plans, w.machines, j), move, machines'[j])
  }

  ghost predicate Stepped(plans: Plans, w: World, j: Id, step: CM.Step, machines': map<Id, CM.Machine>) {
    && plans(j).Valid() && Sized(plans(j), MachineOf(plans, w.machines, j))
    && j in machines' && machines' == w.machines[j := machines'[j]]
    && CM.Next(plans(j), MachineOf(plans, w.machines, j), step, machines'[j])
  }

  ghost predicate Followed(plans: Plans, w: World, event: Event, machines': map<Id, CM.Machine>) {
    match event
    case MoveRun(g, move, _) => g in w.sys.runs && Driven(plans, w, w.sys.runs[g].job, move, machines')
    case Die(inst) => machines' == Halted(w, inst)
    case _ => machines' == w.machines
  }

  ghost predicate NextWorld(plans: Plans, w: World, deed: Deed, w': World) {
    match deed
    case Happens(event) =>
      Next(w.sys, event, w'.sys) && Fit(plans, w'.sys.store.jobs) && Followed(plans, w, event, w'.machines)
    case EngineStep(g, step) =>
      && w'.sys == w.sys && g in w.sys.runs && w.sys.runs[g].pc == Working && EngineAction(step)
      && Stepped(plans, w, w.sys.runs[g].job, step, w'.machines)
    case Outage(j) =>
      w'.sys == w.sys && j in w.sys.store.jobs && !Worked(w.sys.runs, j) && Stepped(plans, w, j, CM.PowerLoss, w'.machines)
  }

  // ---- the invariant that ties devices and store together ----

  ghost predicate JobCoupled(plan: CM.Plan, m: CM.Machine, s: Store, runs: map<nat, Runner>, j: Id) {
    && plan.Valid() && CM.Inv(plan, m) && m.row == CursorOf(s, j)
    && (m.proc != CM.Off ==> Worked(runs, j))
    && (j in s.jobs && s.jobs[j].status == JobVerified ==> m.row.Some? && m.row.value.offset == plan.Size())
  }

  ghost predicate Coupled(plans: Plans, w: World) {
    && Fit(plans, w.sys.store.jobs) && w.machines.Keys <= w.sys.store.jobs.Keys
    && forall j :: j in w.sys.store.jobs ==>
         JobCoupled(plans(j), MachineOf(plans, w.machines, j), w.sys.store, w.sys.runs, j)
  }

  /** A full verification tells the size of its device, in the run and in the certificate. */
  ghost predicate BytesTold(plans: Plans, runs: map<nat, Runner>) {
    forall g :: g in runs && BytesOf(runs[g].pc).Some? && plans(runs[g].job).std.mode == Full ==>
      BytesOf(runs[g].pc).value == plans(runs[g].job).Size()
  }

  ghost predicate CertificatesTold(plans: Plans, certs: map<string, Certificate>) {
    forall n :: n in certs && plans(certs[n].job).std.mode == Full ==> certs[n].verifyBytes == plans(certs[n].job).Size()
  }

  ghost predicate WorldInv(plans: Plans, w: World) {
    && Inv(w.sys) && Coupled(plans, w)
    && BytesTold(plans, w.sys.runs) && CertificatesTold(plans, w.sys.store.certs)
  }

  // ---- jobs whose machine is left alone ----

  /** What the other parts of the system do to a job that matters to its machine: nothing. */
  ghost predicate SameWork(s: Store, s': Store, runs: map<nat, Runner>, runs': map<nat, Runner>, j: Id) {
    && CursorOf(s', j) == CursorOf(s, j) && (Worked(runs, j) ==> Worked(runs', j))
    && (j in s'.jobs && s'.jobs[j].status == JobVerified ==> j in s.jobs && s.jobs[j].status == JobVerified)
  }

  lemma LeftAlone(plan: CM.Plan, m: CM.Machine, s: Store, s': Store, runs: map<nat, Runner>, runs': map<nat, Runner>, j: Id)
    requires JobCoupled(plan, m, s, runs, j) && SameWork(s, s', runs, runs', j)
    ensures JobCoupled(plan, m, s', runs', j)
  {}

  /** A new job starts with an untouched device and no checkpoint. */
  lemma NewlyCoupled(plan: CM.Plan, s: Store, runs: map<nat, Runner>, j: Id)
    requires plan.Valid() && j !in s.checkpoints && (j in s.jobs ==> s.jobs[j].status != JobVerified)
    ensures JobCoupled(plan, CM.Machine(CM.Untouched(plan.original, plan.leftovers), None, CM.Off), s, runs, j)
  {
    CM.InitInv(plan, CM.Machine(CM.Untouched(plan.original, plan.leftovers), None, CM.Off));
  }

  /** A step of the system that drives no machine. */
  lemma AllLeftAlone(plans: Plans, w: World, w': World)
    requires Coupled(plans, w) && Fit(plans, w'.sys.store.jobs) && w'.machines == w.machines
    requires w.sys.store.jobs.Keys <= w'.sys.store.jobs.Keys
    requires forall j :: j in w.sys.store.jobs ==> SameWork(w.sys.store, w'.sys.store, w.sys.runs, w'.sys.runs, j)
    requires forall j :: j in w'.sys.store.jobs && j !in w.sys.store.jobs ==>
               j !in w'.sys.store.checkpoints && w'.sys.store.jobs[j].status != JobVerified
    ensures Coupled(plans, w')
  {
    forall j | j in w'.sys.store.jobs
      ensures JobCoupled(plans(j), MachineOf(plans, w'.machines, j), w'.sys.store, w'.sys.runs, j)
    {
      if j in w.sys.store.jobs {
        LeftAlone(plans(j), MachineOf(plans, w.machines, j), w.sys.store, w'.sys.store, w.sys.runs, w'.sys.runs, j);
      } else {
        NewlyCoupled(plans(j), w'.sys.store, w'.sys.runs, j);
      }
    }
  }

  ghost predicate Calls(plans: Plans, w: World, call: Call, w': World) {
    && Permitted(w.sys.store, call) && w'.sys == w.sys.(store := Perform(w.sys.store, call))
    && Fit(plans, w'.sys.store.jobs) && w'.machines == w.machines
  }

  lemma CallParts(plans: Plans, w: World, call: Call, w': World)
    requires NextWorld(plans, w, Happens(ServiceCall(call)), w')
    ensures Calls(plans, w, call, w')
  {}

  lemma CallCoupled(plans: Plans, w: World, call: Call, w': World)
    requires Kept(w.sys.store) && Coupled(plans, w) && Calls(plans, w, call, w')
    ensures Coupled(plans, w') && w'.sys.store.certs == w.sys.store.certs && w'.sys.runs == w.sys.runs
  {
    CallWork(w.sys.store, call, w.sys.runs);
    AllLeftAlone(plans, w, w');
  }

  lemma CallWork(s: Store, call: Call, runs: map<nat, Runner>)
    requires Kept(s) && Permitted(s, call)
    ensures var s' := Perform(s, call);
            && s'.certs == s.certs && s.jobs.Keys <= s'.jobs.Keys
            && (forall j :: j in s.jobs ==> SameWork(s, s', runs, runs, j))
            && (forall j :: j in s'.jobs && j !in s.jobs ==> j !in s'.checkpoints && s'.jobs[j].status != JobVerified)
  {
    CallKeepsFinal(s, call);
    CalmWork(s, Perform(s, call), runs);
  }

  lemma CalmWork(s: Store, s': Store, runs: map<nat, Runner>)
    requires Calm(s, s') && s.checkpoints.Keys <= s.jobs.Keys && VerifiedJobs(s'.jobs, s'.checkpoints)
    ensures s.jobs.Keys <= s'.jobs.Keys && forall j :: j in s.jobs ==> SameWork(s, s', runs, runs, j)
    ensures forall j :: j in s'.jobs && j !in s.jobs ==> j !in s'.checkpoints && s'.jobs[j].status != JobVerified
  {
    assert forall j :: j in s.jobs ==> Untouched(s, s', j);
  }

  lemma ClaimCoupled(plans: Plans, w: World, event: Event, w': World)
    requires Coupled(plans, w) && event.ClaimJob? && NextWorld(plans, w, Happens(event), w')
    ensures Coupled(plans, w') && w'.sys.store.certs == w.sys.store.certs
  {
    ClaimWork(w.sys, event, w'.sys);
    AllLeftAlone(plans, w, w');
  }

  lemma ClaimWork(sys: System, event: Event, sys': System)
    requires event.ClaimJob? && Next(sys, event, sys')
    ensures sys'.store.jobs.Keys == sys.store.jobs.Keys && sys'.store.certs == sys.store.certs
    ensures forall j :: j in sys.store.jobs ==> SameWork(sys.store, sys'.store, sys.runs, sys'.runs, j)
  {
    forall j | j in sys.store.jobs && Worked(sys.runs, j) ensures Worked(sys'.runs, j) {
      var g :| WorksOn(sys.runs, g, j);
      assert WorksOn(sys'.runs, g, j);
    }
  }

  /** Clock, instances and re-verifications. */
  lemma OtherWork(sys: System, event: Event, sys': System)
    requires Next(sys, event, sys') && !event.ClaimJob? && !event.MoveRun? && !event.ServiceCall? && !event.Die?
    ensures sys'.store.jobs == sys.store.jobs && sys'.store.checkpoints == sys.store.checkpoints
    ensures sys'.store.certs == sys.store.certs && sys'.runs == sys.runs
  {}

  lemma OtherCoupled(plans: Plans, w: World, event: Event, w': World)
    requires Coupled(plans, w) && NextWorld(plans, w, Happens(event), w')
    requires !event.ClaimJob? && !event.MoveRun? && !event.ServiceCall? && !event.Die?
    ensures Coupled(plans, w') && w'.sys.store.certs == w.sys.store.certs && w'.sys.runs == w.sys.runs
  {
    OtherWork(w.sys, event, w'.sys);
    AllLeftAlone(plans, w, w');
  }

  // ---- the job whose run moves ----

  predicate Saves(move: Move) {
    move.Progress? || move.SaveVerified?
  }

  /** What a move does to the row of its own job, as far as the machine cares. */
  lemma OwnRow(s: Store, r: Runner, move: Move, s': Store, pc: Pc)
    requires Knows(s, r) && Step(s, r, move, s', pc)
    ensures move.Progress? ==> CursorOf(s', r.job) == Some(CM.Cursor(move.pass, move.offset))
    ensures move.SaveVerified? ==> CursorOf(s', r.job) == Some(CM.Cursor(|STANDARDS[r.jobRow.standard].passes| - 1, move.size))
    ensures !Saves(move) ==> s'.checkpoints == s.checkpoints
    ensures r.pc == Working && pc == Working ==> move.Progress?
    ensures pc == Working ==> move == MarkDisk || move.Progress?
    ensures r.pc == Working && pc != Working ==> move.SaveVerified? || move.Interrupted? || move.FailRun? || move.MismatchFound?
    ensures (move == MarkDisk ==> r.pc == Marked) && (Saves(move) ==> r.pc == Working)
  {
    if move == AssetDone {
      AssetsForward(s, r.diskRow.asset, AssetErasureDone, r.name, ErasureVerified);
    }
  }

  /** Whether the job counts as verified after the move. */
  lemma OwnStatus(s: Store, r: Runner, move: Move, s': Store, pc: Pc)
    requires Final(s) && Stands(s, r) && Step(s, r, move, s', pc) && !move.SaveVerified?
    requires r.job in s'.jobs && s'.jobs[r.job].status == JobVerified
    ensures s.jobs[r.job].status == JobVerified && !Saves(move)
  {
    if move == AssetDone {
      AssetsForward(s, r.diskRow.asset, AssetErasureDone, r.name, ErasureVerified);
    }
  }

  /** No engine works on the job of a run that is not working. */
  lemma NobodyElse(sys: System, g: nat)
    requires Exclusive(sys.runs) && g in sys.runs && sys.runs[g].pc != Working
    ensures !Worked(sys.runs, sys.runs[g].job)
  {
    forall h | WorksOn(sys.runs, h, sys.runs[g].job) ensures false {
      assert SameJob(sys.runs, g, h);
    }
  }

  lemma MachineFollows(plan: CM.Plan, m: CM.Machine, move: Move, m': CM.Machine)
    requires Sized(plan, m) && CM.Inv(plan, m) && Drives(plan, m, move, m')
    ensures CM.Inv(plan, m')
    ensures m'.row == (match move
                       case Progress(pass, offset, _, _, _) => Some(CM.Cursor(pass, offset))
                       case SaveVerified(size, _, _) => Some(CM.Cursor(plan.Final(), size))
                       case _ => m.row)
    ensures move.SaveVerified? || move.Interrupted? || move.FailRun? || move.MismatchFound? ==> m'.proc == CM.Off
    ensures !Saves(move) && move != MarkDisk && m.proc == CM.Off ==> m'.proc == CM.Off
  {
    match move
    case MarkDisk => CM.StepKeepsInv(plan, m, CM.Boot, m');
    case Progress(_, offset, _, verifying, _) =>
      CM.StepKeepsInv(plan, m, if verifying then CM.VerifySave(offset) else CM.Save, m');
    case SaveVerified(size, _, _) =>
      var saved := m.(row := Some(CM.Cursor(plan.Final(), size)));
      CM.StepKeepsInv(plan, m, CM.VerifySave(size), saved);
      CM.StepKeepsInv(plan, saved, CM.Halt, m');
    case _ =>
      if m' != m {
        CM.StepKeepsInv(plan, m, CM.Halt, m');
      }
  }

  /** The job of the run that moved, when its machine has followed. */
  lemma OwnCoupled(plan: CM.Plan, m: CM.Machine, m': CM.Machine, s: Store, r: Runner, move: Move, s': Store, pc: Pc,
                   runs: map<nat, Runner>, runs': map<nat, Runner>)
    requires Final(s) && Stands(s, r) && Step(s, r, move, s', pc)
    requires r.jobRow.standard in STANDARDS && plan.std == STANDARDS[r.jobRow.standard]
    requires JobCoupled(plan, m, s, runs, r.job) && Sized(plan, m) && Drives(plan, m, move, m')
    requires m'.proc != CM.Off ==> Worked(runs', r.job)
    ensures JobCoupled(plan, m', s', runs', r.job)
  {
    MachineFollows(plan, m, move, m');
    OwnCursor(plan, m, m', s, r, move, s', pc);
    if r.job in s'.jobs && s'.jobs[r.job].status == JobVerified {
      OwnVerified(plan, m, m', s, r, move, s', pc, runs);
    }
  }

  lemma OwnCursor(plan: CM.Plan, m: CM.Machine, m': CM.Machine, s: Store, r: Runner, move: Move, s': Store, pc: Pc)
    requires Knows(s, r) && Step(s, r, move, s', pc) && m.row == CursorOf(s, r.job)
    requires r.jobRow.standard in STANDARDS && plan.std == STANDARDS[r.jobRow.standard]
    requires Sized(plan, m) && CM.Inv(plan, m) && Drives(plan, m, move, m')
    ensures m'.row == CursorOf(s', r.job)
  {
    MachineFollows(plan, m, move, m');
    OwnRow(s, r, move, s', pc);
  }

  lemma OwnProc(plan: CM.Plan, m: CM.Machine, m': CM.Machine, sys: System, g: nat, move: Move, sys': System, pc: Pc)
    requires Exclusive(sys.runs) && g in sys.runs && Knows(sys.store, sys.runs[g]) && Next(sys, MoveRun(g, move, pc), sys')
    requires m.proc != CM.Off ==> Worked(sys.runs, sys.runs[g].job)
    requires Sized(plan, m) && CM.Inv(plan, m) && Drives(plan, m, move, m')
    ensures m'.proc != CM.Off ==> Worked(sys'.runs, sys.runs[g].job)
  {
    OwnRow(sys.store, sys.runs[g], move, sys'.store, pc);
    MachineFollows(plan, m, move, m');
    if pc == Working {
      assert WorksOn(sys'.runs, g, sys.runs[g].job);
    } else if sys.runs[g].pc != Working {
      NobodyElse(sys, g);
    }
  }

  lemma OwnVerified(plan: CM.Plan, m: CM.Machine, m': CM.Machine, s: Store, r: Runner, move: Move, s': Store, pc: Pc,
                    runs: map<nat, Runner>)
    requires Final(s) && Stands(s, r) && Step(s, r, move, s', pc) && JobCoupled(plan, m, s, runs, r.job)
    requires Sized(plan, m) && Drives(plan, m, move, m')
    requires r.job in s'.jobs && s'.jobs[r.job].status == JobVerified
    ensures m'.row.Some? && m'.row.value.offset == plan.Size()
  {
    MachineFollows(plan, m, move, m');
    if !move.SaveVerified? {
      OwnStatus(s, r, move, s', pc);
    }
  }

  /** The other jobs when one run moves. */
  lemma OthersWork(s: Store, s': Store, own: Id, j: Id)
    requires Others(s, s', own) && j in s.jobs && j != own
    ensures CursorOf(s', j) == CursorOf(s, j)
    ensures j in s'.jobs && (s'.jobs[j].status == JobVerified ==> s.jobs[j].status == JobVerified)
  {
    assert Untouched(s, s', j);
  }

  lemma WorkedElsewhere(sys: System, g: nat, s': Store, pc: Pc, j: Id)
    requires g in sys.runs && j != sys.runs[g].job && Worked(sys.runs, j)
    ensures Worked(Moved(sys, g, s', pc).runs, j)
  {
    var h :| WorksOn(sys.runs, h, j);
    assert WorksOn(Moved(sys, g, s', pc).runs, h, j);
  }

  lemma MoveWork(sys: System, g: nat, move: Move, sys': System, pc: Pc)
    requires Final(sys.store) && AllStand(sys.store, sys.runs) && Next(sys, MoveRun(g, move, pc), sys')
    ensures sys'.store.jobs.Keys == sys.store.jobs.Keys && sys.runs[g].job in sys.store.jobs
    ensures forall j :: j in sys.store.jobs && j != sys.runs[g].job ==> SameWork(sys.store, sys'.store, sys.runs, sys'.runs, j)
  {
    assert Stands(sys.store, sys.runs[g]);
    MoveOthers(sys, g, move, sys'.store, pc);
    EachOtherJob(sys, g, sys'.store, pc);
  }

  lemma EachOtherJob(sys: System, g: nat, s': Store, pc: Pc)
    requires g in sys.runs && Others(sys.store, s', sys.runs[g].job)
    ensures forall j :: j in sys.store.jobs && j != sys.runs[g].job ==>
              SameWork(sys.store, s', sys.runs, Moved(sys, g, s', pc).runs, j)
  {
    forall j | j in sys.store.jobs && j != sys.runs[g].job
      ensures SameWork(sys.store, s', sys.runs, Moved(sys, g, s', pc).runs, j)
    {
      OthersWork(sys.store, s', sys.runs[g].job, j);
      if Worked(sys.runs, j) {
        WorkedElsewhere(sys, g, s', pc, j);
      }
    }
  }

  /** One machine has changed, and the jobs of the others are as they were. */
  lemma OneDriven(plans: Plans, w: World, w': World, own: Id)
    requires Coupled(plans, w) && Fit(plans, w'.sys.store.jobs) && w'.sys.store.jobs.Keys == w.sys.store.jobs.Keys
    requires own in w'.machines && w'.machines == w.machines[own := w'.machines[own]] && own in w.sys.store.jobs
    requires forall j :: j in w.sys.store.jobs && j != own ==> SameWork(w.sys.store, w'.sys.store, w.sys.runs, w'.sys.runs, j)
    requires plans(own).Valid() && JobCoupled(plans(own), w'.machines[own], w'.sys.store, w'.sys.runs, own)
    ensures Coupled(plans, w')
  {
    forall j | j in w'.sys.store.jobs
      ensures JobCoupled(plans(j), MachineOf(plans, w'.machines, j), w'.sys.store, w'.sys.runs, j)
    {
      if j != own {
        OtherMachine(plans, w, w', own, j);
      }
    }
  }

  lemma OtherMachine(plans: Plans, w: World, w': World, own: Id, j: Id)
    requires own in w'.machines && w'.machines == w.machines[own := w'.machines[own]] && j != own
    requires plans(j).Valid() && JobCoupled(plans(j), MachineOf(plans, w.machines, j), w.sys.store, w.sys.runs, j)
    requires SameWork(w.sys.store, w'.sys.store, w.sys.runs, w'.sys.runs, j)
    ensures JobCoupled(plans(j), MachineOf(plans, w'.machines, j), w'.sys.store, w'.sys.runs, j)
  {
    LeftAlone(plans(j), MachineOf(plans, w.machines, j), w.sys.store, w'.sys.store, w.sys.runs, w'.sys.runs, j);
  }

  lemma MoveCoupled(plans: Plans, w: World, g: nat, move: Move, pc: Pc, w': World)
    requires Inv(w.sys) && Coupled(plans, w) && NextWorld(plans, w, Happens(MoveRun(g, move, pc)), w')
    ensures Coupled(plans, w')
  {
    MoveWork(w.sys, g, move, w'.sys, pc);
    OwnMoved(plans, w, g, move, pc, w');
    OneDriven(plans, w, w', w.sys.runs[g].job);
  }

  lemma OwnMoved(plans: Plans, w: World, g: nat, move: Move, pc: Pc, w': World)
    requires Inv(w.sys) && Coupled(plans, w) && NextWorld(plans, w, Happens(MoveRun(g, move, pc)), w')
    ensures var j := w.sys.runs[g].job;
            && plans(j).Valid() && j in w'.machines && w'.machines == w.machines[j := w'.machines[j]]
            && JobCoupled(plans(j), w'.machines[j], w'.sys.store, w'.sys.runs, j)
  {
    assert Stands(w.sys.store, w.sys.runs[g]);
    OwnFollows(plans, w, g, move, pc, w');
  }

  lemma OwnFollows(plans: Plans, w: World, g: nat, move: Move, pc: Pc, w': World)
    requires Final(w.sys.store) && Exclusive(w.sys.runs) && g in w.sys.runs && Stands(w.sys.store, w.sys.runs[g])
    requires Coupled(plans, w) && Next(w.sys, MoveRun(g, move, pc), w'.sys) && Driven(plans, w, w.sys.runs[g].job, move, w'.machines)
    ensures var j := w.sys.runs[g].job; JobCoupled(plans(j), w'.machines[j], w'.sys.store, w'.sys.runs, j)
  {
    var sys, sys', r, j := w.sys, w'.sys, w.sys.runs[g], w.sys.runs[g].job;
    var m, m' := MachineOf(plans, w.machines, j), w'.machines[j];
    assert JobCoupled(plans(j), m, sys.store, sys.runs, j);
    assert plans(j).std == STANDARDS[r.jobRow.standard];
    OwnProc(plans(j), m, m', sys, g, move, sys', pc);
    OwnCoupled(plans(j), m, m', sys.store, r, move, sys'.store, pc, sys.runs, sys'.runs);
  }

  // ---- deaths, engine steps and outages ----

  lemma HaltedCoupled(plan: CM.Plan, m: CM.Machine, s: Store, runs: map<nat, Runner>, runs': map<nat, Runner>, j: Id)
    requires JobCoupled(plan, m, s, runs, j)
    ensures JobCoupled(plan, m.(proc := CM.Off), s, runs', j)
  {
    CM.StepKeepsInv(plan, m, CM.Halt, m.(proc := CM.Off));
  }

  lemma DeathCoupled(plans: Plans, w: World, inst: string, w': World)
    requires Coupled(plans, w) && w'.machines == Halted(w, inst) && w'.sys == Without(w.sys, inst)
    ensures Coupled(plans, w')
  {
    forall j | j in w.sys.store.jobs
      ensures JobCoupled(plans(j), MachineOf(plans, w'.machines, j), w'.sys.store, w'.sys.runs, j)
    {
      assert JobCoupled(plans(j), MachineOf(plans, w.machines, j), w.sys.store, w.sys.runs, j);
      JobAfterDeath(plans, w, inst, w', j);
    }
  }

  lemma JobAfterDeath(plans: Plans, w: World, inst: string, w': World, j: Id)
    requires w'.machines == Halted(w, inst) && w'.sys == Without(w.sys, inst)
    requires plans(j).Valid() && JobCoupled(plans(j), MachineOf(plans, w.machines, j), w.sys.store, w.sys.runs, j)
    ensures JobCoupled(plans(j), MachineOf(plans, w'.machines, j), w'.sys.store, w'.sys.runs, j)
  {
    var m := MachineOf(plans, w.machines, j);
    if exists g :: RunOf(w.sys.runs, g, inst, j) {
      HaltedCoupled(plans(j), m, w.sys.store, w.sys.runs, w'.sys.runs, j);
    } else {
      SurvivorsWork(w.sys.runs, w'.sys.runs, inst, j);
      LeftAlone(plans(j), m, w.sys.store, w'.sys.store, w.sys.runs, w'.sys.runs, j);
    }
  }

  lemma SurvivorsWork(runs: map<nat, Runner>, runs': map<nat, Runner>, inst: string, j: Id)
    requires runs' == map g | g in runs && runs[g].inst != inst :: runs[g]
    requires !exists g :: RunOf(runs, g, inst, j)
    ensures Worked(runs, j) ==> Worked(runs', j)
  {
    if Worked(runs, j) {
      var g :| WorksOn(runs, g, j);
      assert !RunOf(runs, g, inst, j);
      assert WorksOn(runs', g, j);
    }
  }

  /** A step of the machine of one job that leaves store and runs alone. */
  lemma SteppedCoupled(plans: Plans, w: World, j: Id, step: CM.Step, w': World)
    requires Coupled(plans, w) && w'.sys == w.sys && j in w.sys.store.jobs && Stepped(plans, w, j, step, w'.machines)
    requires (EngineAction(step) && Worked(w.sys.runs, j)) || step.PowerLoss?
    ensures Coupled(plans, w')
  {
    var m, m' := MachineOf(plans, w.machines, j), w'.machines[j];
    assert JobCoupled(plans(j), m, w.sys.store, w.sys.runs, j);
    CM.StepKeepsInv(plans(j), m, step, m');
    assert m'.row == m.row;
    OneDriven(plans, w, w', j);
  }

  // ---- what runs and certificates tell ----

  lemma MoveTells(plan: CM.Plan, m: CM.Machine, s: Store, r: Runner, move: Move, s': Store, pc: Pc, m': CM.Machine)
    requires Step(s, r, move, s', pc) && Sized(plan, m) && Drives(plan, m, move, m') && plan.std.mode == Full
    requires BytesOf(r.pc).Some? ==> BytesOf(r.pc).value == plan.Size()
    ensures BytesOf(pc).Some? ==> BytesOf(pc).value == plan.Size()
  {}

  /** The run `g` makes this move, and the machine of its job follows. */
  ghost predicate Moves(plans: Plans, w: World, g: nat, move: Move, pc: Pc, w': World) {
    && g in w.sys.runs && Step(w.sys.store, w.sys.runs[g], move, w'.sys.store, pc)
    && w'.sys == Moved(w.sys, g, w'.sys.store, pc) && Driven(plans, w, w.sys.runs[g].job, move, w'.machines)
  }

  lemma MoveParts(plans: Plans, w: World, g: nat, move: Move, pc: Pc, w': World)
    requires NextWorld(plans, w, Happens(MoveRun(g, move, pc)), w')
    ensures Moves(plans, w, g, move, pc, w')
  {}

  lemma RunsTell(plans: Plans, w: World, g: nat, move: Move, pc: Pc, w': World)
    requires BytesTold(plans, w.sys.runs) && Moves(plans, w, g, move, pc, w')
    ensures BytesTold(plans, w'.sys.runs)
  {
    var j := w.sys.runs[g].job;
    if plans(j).std.mode == Full {
      MoveTells(plans(j), MachineOf(plans, w.machines, j), w.sys.store, w.sys.runs[g], move, w'.sys.store, pc, w'.machines[j]);
    }
  }

  lemma CertificatesTell(plans: Plans, sys: System, g: nat, move: Move, pc: Pc, s': Store)
    requires BytesTold(plans, sys.runs) && g in sys.runs && Step(sys.store, sys.runs[g], move, s', pc)
    ensures plans(sys.runs[g].job).std.mode == Full ==> forall n :: n in s'.certs && n !in sys.store.certs ==>
              s'.certs[n].job == sys.runs[g].job && s'.certs[n].verifyBytes == plans(sys.runs[g].job).Size()
  {
    CertificatesAdded(sys.store, sys.runs[g], move, s', pc);
  }

  lemma CertificatesAdded(s: Store, r: Runner, move: Move, s': Store, pc: Pc)
    requires Step(s, r, move, s', pc)
    ensures forall n :: n in s'.certs && n !in s.certs ==>
              BytesOf(r.pc).Some? && s'.certs[n].job == r.job && s'.certs[n].verifyBytes == BytesOf(r.pc).value
  {
    forall n | n in s'.certs && n !in s.certs
      ensures BytesOf(r.pc).Some? && s'.certs[n].job == r.job && s'.certs[n].verifyBytes == BytesOf(r.pc).value
    {
      CertifyAdds(s, r, move, s', pc, n);
    }
  }

  lemma MoveTold(plans: Plans, w: World, g: nat, move: Move, pc: Pc, w': World)
    requires Final(w.sys.store) && AllStand(w.sys.store, w.sys.runs)
    requires BytesTold(plans, w.sys.runs) && CertificatesTold(plans, w.sys.store.certs) && Moves(plans, w, g, move, pc, w')
    ensures BytesTold(plans, w'.sys.runs) && CertificatesTold(plans, w'.sys.store.certs)
  {
    RunsTell(plans, w, g, move, pc, w');
    CertificatesMove(plans, w.sys, g, move, pc, w'.sys.store);
  }

  lemma CertificatesMove(plans: Plans, sys: System, g: nat, move: Move, pc: Pc, s': Store)
    requires Final(sys.store) && AllStand(sys.store, sys.runs) && BytesTold(plans, sys.runs)
    requires CertificatesTold(plans, sys.store.certs) && g in sys.runs && Step(sys.store, sys.runs[g], move, s', pc)
    ensures CertificatesTold(plans, s'.certs)
  {
    CertificatesTell(plans, sys, g, move, pc, s');
    MoveExtends(sys, g, move, s', pc);
    NewCertificatesTold(plans, sys.store.certs, s'.certs, sys.runs[g].job);
  }

  lemma MoveExtends(sys: System, g: nat, move: Move, s': Store, pc: Pc)
    requires Final(sys.store) && AllStand(sys.store, sys.runs) && g in sys.runs && Step(sys.store, sys.runs[g], move, s', pc)
    ensures Extends(sys.store.certs, s'.certs)
    ensures forall n :: n in s'.certs && n !in sys.store.certs ==> s'.certs[n].job == sys.runs[g].job
  {
    MoveOthers(sys, g, move, s', pc);
  }

  lemma MoveOthers(sys: System, g: nat, move: Move, s': Store, pc: Pc)
    requires Final(sys.store) && AllStand(sys.store, sys.runs) && g in sys.runs && Step(sys.store, sys.runs[g], move, s', pc)
    ensures Others(sys.store, s', sys.runs[g].job)
  {
    assert Stands(sys.store, sys.runs[g]);
    MoveKeepsFinal(sys.store, sys.runs[g], move, s', pc);
  }

  lemma NewCertificatesTold(plans: Plans, certs: map<string, Certificate>, certs': map<string, Certificate>, own: Id)
    requires CertificatesTold(plans, certs) && Extends(certs, certs')
    requires forall n :: n in certs' && n !in certs ==> certs'[n].job == own
    requires plans(own).std.mode == Full ==> forall n :: n in certs' && n !in certs ==>
               certs'[n].job == own && certs'[n].verifyBytes == plans(own).Size()
    ensures CertificatesTold(plans, certs')
  {}

  lemma ClaimTold(plans: Plans, sys: System, event: Event, sys': System)
    requires BytesTold(plans, sys.runs) && event.ClaimJob? && Next(sys, event, sys')
    ensures BytesTold(plans, sys'.runs)
  {}

  lemma DeathTold(plans: Plans, sys: System, inst: string)
    requires BytesTold(plans, sys.runs)
    ensures BytesTold(plans, Without(sys, inst).runs)
  {}

  // ---- every run of the whole world ----

  lemma EventKeepsWorld(plans: Plans, w: World, event: Event, w': World)
    requires WorldInv(plans, w) && NextWorld(plans, w, Happens(event), w')
    ensures Coupled(plans, w') && BytesTold(plans, w'.sys.runs) && CertificatesTold(plans, w'.sys.store.certs)
  {
    if event.MoveRun? {
      MoveKeepsWorld(plans, w, event.run, event.move, event.pc, w');
    } else if event.ServiceCall? {
      CallKeepsWorld(plans, w, event.call, w');
    } else {
      OtherKeepsWorld(plans, w, event, w');
    }
  }

  lemma MoveKeepsWorld(plans: Plans, w: World, g: nat, move: Move, pc: Pc, w': World)
    requires WorldInv(plans, w) && NextWorld(plans, w, Happens(MoveRun(g, move, pc)), w')
    ensures Coupled(plans, w') && BytesTold(plans, w'.sys.runs) && CertificatesTold(plans, w'.sys.store.certs)
  {
    MoveCoupled(plans, w, g, move, pc, w');
    MoveParts(plans, w, g, move, pc, w');
    MoveTold(plans, w, g, move, pc, w');
  }

  lemma CallKeepsWorld(plans: Plans, w: World, call: Call, w': World)
    requires WorldInv(plans, w) && NextWorld(plans, w, Happens(ServiceCall(call)), w')
    ensures Coupled(plans, w') && BytesTold(plans, w'.sys.runs) && CertificatesTold(plans, w'.sys.store.certs)
  {
    CallParts(plans, w, call, w');
    CallCoupled(plans, w, call, w');
  }

  lemma OtherKeepsWorld(plans: Plans, w: World, event: Event, w': World)
    requires WorldInv(plans, w) && NextWorld(plans, w, Happens(event), w') && !event.MoveRun? && !event.ServiceCall?
    ensures Coupled(plans, w') && BytesTold(plans, w'.sys.runs) && CertificatesTold(plans, w'.sys.store.certs)
  {
    match event
    case ClaimJob(_, _, _, _) =>
      ClaimCoupled(plans, w, event, w');
      ClaimTold(plans, w.sys, event, w'.sys);
    case Die(inst) =>
      DeathCoupled(plans, w, inst, w');
      DeathTold(plans, w.sys, inst);
    case _ => OtherCoupled(plans, w, event, w');
  }

  lemma DeviceDeedCoupled(plans: Plans, w: World, deed: Deed, w': World)
    requires Inv(w.sys) && Coupled(plans, w) && NextWorld(plans, w, deed, w') && !deed.Happens?
    ensures Coupled(plans, w') && w'.sys == w.sys
  {
    match deed
    case EngineStep(g, step) =>
      assert Stands(w.sys.store, w.sys.runs[g]) && WorksOn(w.sys.runs, g, w.sys.runs[g].job);
      SteppedCoupled(plans, w, w.sys.runs[g].job, step, w');
    case Outage(j) => SteppedCoupled(plans, w, j, CM.PowerLoss, w');
  }

  lemma NextKeepsWorld(plans: Plans, w: World, deed: Deed, w': World)
    requires WorldInv(plans, w) && NextWorld(plans, w, deed, w')
    ensures WorldInv(plans, w')
  {
    if deed.Happens? {
      NextKeepsInv(w.sys, deed.event, w'.sys);
      EventKeepsWorld(plans, w, deed.event, w');
    } else {
      DeviceDeedCoupled(plans, w, deed, w');
    }
  }

  datatype WorldTrace = WorldTrace(states: seq<World>, deeds: seq<Deed>) {
    ghost predicate Valid(plans: Plans) {
      && |states| == |deeds| + 1 && Initial(states[0].sys) && states[0].machines == map[]
      && forall i :: 0 <= i < |deeds| ==> StepAt(plans, i)
    }

    ghost predicate StepAt(plans: Plans, i: nat)
      requires |states| == |deeds| + 1 && i < |deeds|
    {
      NextWorld(plans, states[i], deeds[i], states[i + 1])
    }
  }

  lemma InitialWorld(plans: Plans, w: World)
    requires Initial(w.sys) && w.machines == map[]
    ensures WorldInv(plans, w)
  {
    InitialInv(w.sys);
  }

  lemma {:induction false} EveryWorldKept(plans: Plans, t: WorldTrace, n: nat)
    requires t.Valid(plans) && n < |t.states|
    ensures WorldInv(plans, t.states[n])
  {
    if n == 0 {
      InitialWorld(plans, t.states[0]);
    } else {
      EveryWorldKept(plans, t, n - 1);
      assert t.StepAt(plans, n - 1);
      NextKeepsWorld(plans, t.states[n - 1], t.deeds[n - 1], t.states[n]);
    }
  }

  /** The device reads as after one uninterrupted run, also after a further power loss, and every pass is durable everywhere. */
  ghost predicate WipedFor(plan: CM.Plan, m: CM.Machine)
    requires plan.Valid()
  {
    && CM.Values(m.media) == CM.FreshRun(plan) && CM.AllBelow(m.media, |plan.std.passes|)
    && forall media: CM.Media :: CM.AfterPowerLoss(m.media, media) ==> CM.Values(media) == CM.FreshRun(plan)
  }

  /** A machine at rest with its checkpoint at the end of the last pass. */
  lemma RestsWiped(plan: CM.Plan, m: CM.Machine)
    requires plan.Valid() && CM.Inv(plan, m) && m.proc == CM.Off && m.row == Some(CM.Cursor(plan.Final(), plan.Size()))
    ensures WipedFor(plan, m)
  {
    CM.FreshImage(plan, plan.original, 0, 0);
    forall b | 0 <= b < |m.media|
      ensures m.media[b].value == CM.FreshRun(plan)[b] && m.media[b].survivors == {CM.FreshRun(plan)[b]}
      ensures forall r: nat :: r < |plan.std.passes| ==> r in m.media[b].durable
    {
      assert CM.CellAt(plan, m.media[b], b, plan.Final(), plan.Size());
    }
    forall media: CM.Media | CM.AfterPowerLoss(m.media, media) ensures CM.Values(media) == CM.FreshRun(plan) {
      forall b | 0 <= b < |media| ensures media[b].value == CM.FreshRun(plan)[b] {
        assert m.media[b].survivors == {CM.FreshRun(plan)[b]};
      }
    }
  }

  /** A verified job has nobody working on it, and its device is wiped. */
  lemma VerifiedJobIsWiped(plans: Plans, w: World, j: Id)
    requires WorldInv(plans, w) && j in w.sys.store.jobs && w.sys.store.jobs[j].status == JobVerified
    ensures plans(j).Valid() && WipedFor(plans(j), MachineOf(plans, w.machines, j))
  {
    NobodyOnVerified(w.sys, j);
    CoupledIsWiped(plans(j), MachineOf(plans, w.machines, j), w.sys.store, w.sys.runs, j);
  }

  lemma NobodyOnVerified(sys: System, j: Id)
    requires AllStand(sys.store, sys.runs) && j in sys.store.jobs && sys.store.jobs[j].status == JobVerified
    ensures !Worked(sys.runs, j)
  {
    forall g | g in sys.runs && sys.runs[g].job == j ensures sys.runs[g].pc != Working {
      assert Stands(sys.store, sys.runs[g]);
    }
  }

  lemma CoupledIsWiped(plan: CM.Plan, m: CM.Machine, s: Store, runs: map<nat, Runner>, j: Id)
    requires JobCoupled(plan, m, s, runs, j) && !Worked(runs, j) && VerifiedJobs(s.jobs, s.checkpoints)
    requires j in s.jobs && s.jobs[j].status == JobVerified && s.jobs[j].standard in STANDARDS
    requires plan.std == STANDARDS[s.jobs[j].standard]
    ensures WipedFor(plan, m)
  {
    assert AtEnd(s.jobs[j], j, s.checkpoints);
    RestsWiped(plan, m);
  }

  /**
   * From certificates to devices, over every interleaving of service calls, runs, re-verifications, deaths, restarts
   * and power losses: every certificate rests on a device that its job has wiped, and the certificate of a fully
   * verified standard tells that device's size.
   */
  lemma EveryCertificateRestsOnAWipedDevice(plans: Plans, t: WorldTrace, n: nat, certNo: string)
    requires t.Valid(plans) && n < |t.states| && certNo in t.states[n].sys.store.certs
    ensures var w := t.states[n]; var c := w.sys.store.certs[certNo];
            && plans(c.job).Valid() && plans(c.job).std.code == c.standard
            && WipedFor(plans(c.job), MachineOf(plans, w.machines, c.job))
            && (plans(c.job).std.mode == Full ==> c.verifyBytes == plans(c.job).Size())
  {
    EveryWorldKept(plans, t, n);
    var w := t.states[n];
    var c := w.sys.store.certs[certNo];
    CertifiedMeansVerified(w.sys.store, certNo);
    assert CertificateRests(w.sys.store, certNo, c);
    BuiltInStandards(c.standard);
    VerifiedJobIsWiped(plans, w, c.job);
  }

  /** What that means for a certificate by one of these standards: its device holds zero bytes, and a power loss leaves them. */
  lemma CertifiedDeviceIsZero(plans: Plans, t: WorldTrace, n: nat, certNo: string)
    requires t.Valid(plans) && n < |t.states| && certNo in t.states[n].sys.store.certs
    requires t.states[n].sys.store.certs[certNo].standard in {"nist_clear", "nist_purge", "sample_quick"}
    ensures var w := t.states[n]; var j := w.sys.store.certs[certNo].job;
            && plans(j).Valid()
            && var media := MachineOf(plans, w.machines, j).media;
               && |media| == plans(j).Size() && (forall b :: 0 <= b < |media| ==> media[b].value == 0x00)
               && forall later: CM.Media :: CM.AfterPowerLoss(media, later) ==> forall b :: 0 <= b < |later| ==> later[b].value == 0x00
  {
    EveryCertificateRestsOnAWipedDevice(plans, t, n, certNo);
    var c := t.states[n].sys.store.certs[certNo];
    PlanOfCertificate(plans, t, n, certNo);
    CM.ZeroStandards(plans(c.job), c.standard);
    var media := MachineOf(plans, t.states[n].machines, c.job).media;
    ZeroMedia(plans(c.job), media);
    forall later: CM.Media | CM.AfterPowerLoss(media, later) ensures forall b :: 0 <= b < |later| ==> later[b].value == 0x00 {
      ZeroMedia(plans(c.job), later);
    }
  }

  lemma PlanOfCertificate(plans: Plans, t: WorldTrace, n: nat, certNo: string)
    requires t.Valid(plans) && n < |t.states| && certNo in t.states[n].sys.store.certs
    ensures var c := t.states[n].sys.store.certs[certNo]; c.standard in STANDARDS && plans(c.job).std == STANDARDS[c.standard]
  {
    EveryWorldKept(plans, t, n);
    assert CertificateRests(t.states[n].sys.store, certNo, t.states[n].sys.store.certs[certNo]);
  }

  lemma ZeroMedia(plan: CM.Plan, media: CM.Media)
    requires plan.Valid() && CM.Values(media) == CM.FreshRun(plan)
    requires forall b :: 0 <= b < plan.Size() ==> CM.FreshRun(plan)[b] == 0x00
    ensures |media| == plan.Size() && forall b :: 0 <= b < |media| ==> media[b].value == 0x00
  {
    forall b | 0 <= b < |media| ensures media[b].value == 0x00 {
      assert CM.Values(media)[b] == media[b].value;
    }
  }

  /** Likewise for every disk that counts as verified. */
  lemma EveryVerifiedDiskIsWiped(plans: Plans, t: WorldTrace, n: nat, disk: Id) returns (j: Id)
    requires t.Valid(plans) && n < |t.states| && disk in t.states[n].sys.store.disks
    requires t.states[n].sys.store.disks[disk].status == DiskVerified
    ensures var w := t.states[n];
            && j in w.sys.store.jobs && w.sys.store.jobs[j].disk == disk
            && plans(j).Valid() && WipedFor(plans(j), MachineOf(plans, w.machines, j))
  {
    EveryWorldKept(plans, t, n);
    var w := t.states[n];
    assert HasVerifiedJob(w.sys.store.jobs, disk);
    j :| j in w.sys.store.jobs && VerifiedOn(w.sys.store.jobs[j], disk);
    VerifiedJobIsWiped(plans, w, j);
  }

  /** The coupling asks nothing of a run that it could not do: when a run begins to work, no other engine is on its device. */
  lemma MarkedRunCanBoot(plans: Plans, t: WorldTrace, n: nat, g: nat)
    requires t.Valid(plans) && n < |t.states| && g in t.states[n].sys.runs && t.states[n].sys.runs[g].pc == Marked
    ensures var w := t.states[n]; var j := w.sys.runs[g].job;
            plans(j).Valid() && MachineOf(plans, w.machines, j).proc == CM.Off
  {
    EveryWorldKept(plans, t, n);
    var w := t.states[n];
    assert Stands(w.sys.store, w.sys.runs[g]);
    NobodyElse(w.sys, g);
    var j := w.sys.runs[g].job;
    assert JobCoupled(plans(j), MachineOf(plans, w.machines, j), w.sys.store, w.sys.runs, j);
  }
}
