/** How the status of a disk changes in the whole system: which steps write it, and what is left unwritten. */
module DiskHistory {
  import opened Domain
  import opened StoreModel
  import opened History
  import opened ServiceRules
  import opened RunnerModel
  import opened Gate
  import opened Finality
  import opened Upkeep
  import opened SystemModel

  /** The status a move of a run writes to the disk of its job. */
  function Marks(move: Move): Option<DiskStatus> {
    match move
    case MarkDisk => Some(DiskErasing)
    case FailDisk => Some(DiskFailed)
    case DiskVerifiedMove => Some(DiskVerified)
    case _ => None
  }

  /** The checks that a scrap has to pass. */
  predicate CanScrap(s: Store, disk: Id, operator: string) {
    operator != "" && disk in s.disks && (s.disks[disk].status == DiskFailed || s.disks[disk].status == DiskPulled)
  }

  predicate CanPull(s: Store, asset: Id, operator: string, inputs: seq<DiskInput>, found: Option<Id>) {
    operator != "" && |inputs| > 0 && asset in s.assets && s.assets[asset].status == AssetPending && Passes(s, found)
  }

  function CallUpdates(s: Store, call: Call, disk: Id): Option<DiskStatus> {
    match call
    case CallScrap(d, operator) => if d == disk && CanScrap(s, d, operator) then Some(DiskScrapped) else None
    case CallPull(asset, operator, inputs, ids, found) =>
      if |ids| == |inputs| && CanPull(s, asset, operator, inputs, found) && disk in ids[..Accepted(inputs)] then Some(DiskPulled)
      else None
    case _ => None
  }

  /** The status that a step writes to a disk, if it writes one. */
  function Updates(sys: System, event: Event, disk: Id): Option<DiskStatus> {
    match event
    case MoveRun(g, move, _) => if g in sys.runs && sys.runs[g].jobRow.disk == disk then Marks(move) else None
    case CheckFails(v) => if v in sys.checks && sys.checks[v].disk == disk then Some(DiskFailed) else None
    case ServiceCall(call) => CallUpdates(sys.store, call, disk)
    case _ => None
  }

  /** Disk rows before and after a step that writes `written` to `disk`. */
  ghost predicate Wrote(disks: map<Id, Disk>, disks': map<Id, Disk>, disk: Id, written: Option<DiskStatus>) {
    && (disk in disks ==> disk in disks')
    && (disk in disks' ==>
          if written.Some? then disks'[disk].status == written.value
          else disk in disks && disks'[disk] == disks[disk])
  }

  lemma MoveWrites(s: Store, r: Runner, move: Move, s': Store, pc: Pc, disk: Id)
    requires Knows(s, r) && Step(s, r, move, s', pc)
    ensures Wrote(s.disks, s'.disks, disk, if r.jobRow.disk == disk then Marks(move) else None)
  {
    if RowMove(move) {
      RowMoveOnly(s, r, move, s', pc);
    } else if move == AssetDone {
      AssetsForward(s, r.diskRow.asset, AssetErasureDone, r.name, ErasureVerified);
    }
  }

  lemma ScrapWrites(s: Store, scrapped: Id, operator: string, disk: Id)
    ensures Wrote(s.disks, Scrap(s, scrapped, operator).store.disks, disk, CallUpdates(s, CallScrap(scrapped, operator), disk))
  {
    ScrapParts(s, scrapped, operator);
    if CanScrap(s, scrapped, operator) {
      ScrappedDisks(s, scrapped, operator);
    }
  }

  lemma ScrappedDisks(s: Store, disk: Id, operator: string)
    requires CanScrap(s, disk, operator)
    ensures Scrap(s, disk, operator).store.disks == s.disks[disk := s.disks[disk].(status := DiskScrapped)]
    ensures Scrap(s, disk, operator).store.jobs == Ended(s, disk, operator).jobs
  {
    AssetsForward(Ended(s, disk, operator), s.disks[disk].asset, AssetScrapped, operator, ScrapAsset);
  }

  lemma PullWrites(s: Store, asset: Id, operator: string, inputs: seq<DiskInput>, ids: seq<Id>, found: Option<Id>, disk: Id)
    requires |ids| == |inputs| && FreshIds(s, ids)
    ensures Wrote(s.disks, Pull(s, asset, operator, inputs, ids, found).store.disks, disk,
                  CallUpdates(s, CallPull(asset, operator, inputs, ids, found), disk))
  {
    if CanPull(s, asset, operator, inputs, found) {
      var n := Accepted(inputs);
      AddedDisks(s, asset, operator, inputs, ids, n);
      var mid := AddDisks(s, asset, operator, inputs, ids, n);
      AssetsForward(mid, asset, AssetDiskPulled, operator, PullDisksAction);
    }
  }

  lemma OrderLeavesDisks(s: Store, disk: Id, standard: string, operator: string, id: Id, now: nat, found: Option<Id>)
    ensures Order(s, disk, standard, operator, id, now, found).store.disks == s.disks
  {
    var s' := Order(s, disk, standard, operator, id, now, found).store;
    if s' != s {
      var job := Job(disk, STANDARDS[standard].code, JobPending, |JobsOf(s, disk)|, 0, 0, 0, operator, "", 0, now);
      AssetsForward(CreateJob(s, id, job, now).store, s.disks[disk].asset, AssetErasing, operator, StartErasing);
    }
  }

  lemma CallWrites(s: Store, call: Call, disk: Id)
    requires Permitted(s, call)
    ensures Wrote(s.disks, Perform(s, call).disks, disk, CallUpdates(s, call, disk))
  {
    match call
    case CallPull(asset, operator, inputs, ids, found) => PullWrites(s, asset, operator, inputs, ids, found, disk);
    case CallScrap(scrapped, operator) => ScrapWrites(s, scrapped, operator, disk);
    case CallOrder(d, standard, operator, id, now, found) => OrderLeavesDisks(s, d, standard, operator, id, now, found);
    case _ =>
  }

  /** Exactly what every step of the system does to a disk. */
  lemma StepWrites(sys: System, event: Event, sys': System, disk: Id)
    requires AllStand(sys.store, sys.runs) && Next(sys, event, sys')
    ensures Wrote(sys.store.disks, sys'.store.disks, disk, Updates(sys, event, disk))
  {
    match event
    case MoveRun(g, move, pc) =>
      assert Stands(sys.store, sys.runs[g]);
      MoveWrites(sys.store, sys.runs[g], move, sys'.store, pc, disk);
    case ServiceCall(call) => CallWrites(sys.store, call, disk);
    case CheckFails(v) =>
    case _ => assert sys'.store.disks == sys.store.disks;
  }

  /** What was last written to a disk by the steps from state `m` to state `n`. */
  function LastWritten(t: Trace, m: nat, n: nat, disk: Id): Option<DiskStatus>
    requires |t.states| == |t.events| + 1 && m <= n < |t.states|
    decreases n
  {
    if m == n then None
    else if Updates(t.states[n - 1], t.events[n - 1], disk).Some? then Updates(t.states[n - 1], t.events[n - 1], disk)
    else LastWritten(t, m, n - 1, disk)
  }

  /** A disk has the status last written to it, or the one it had. */
  lemma {:induction false} StatusIsLastWritten(t: Trace, m: nat, n: nat, disk: Id)
    requires t.Valid() && m <= n < |t.states|
    ensures Wrote(t.states[m].store.disks, t.states[n].store.disks, disk, LastWritten(t, m, n, disk))
    decreases n
  {
    if m < n {
      StatusIsLastWritten(t, m, n - 1, disk);
      EveryStateKept(t, n - 1);
      StepWritesAt(t, n - 1, disk);
    }
  }

  lemma StepWritesAt(t: Trace, n: nat, disk: Id)
    requires t.Legal() && n < |t.events| && AllStand(t.states[n].store, t.states[n].runs)
    ensures Wrote(t.states[n].store.disks, t.states[n + 1].store.disks, disk, Updates(t.states[n], t.events[n], disk))
  {
    assert t.StepAt(n);
    StepWrites(t.states[n], t.events[n], t.states[n + 1], disk);
  }
}
