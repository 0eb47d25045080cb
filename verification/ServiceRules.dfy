/** What each service call does when it runs as one atomic step: its checks in order, then its effect. */
module ServiceRules {
  import opened Domain
  import opened StoreModel

  predicate IsRoute(route: string) {
    route == "reuse" || route == "resale" || route == "destroy"
  }

  function Register(s: Store, tag: string, owner: string, operator: string, id: Id): Reply {
    if tag == "" || operator == "" then Reply(s, Conflict)
    else CreateAsset(s, id, Asset(tag, owner, AssetPending, operator))
  }

  // ---- approvals ----

  function RequestsOf(approvals: map<Id, Approval>, asset: Id): (ids: set<Id>)
    ensures ids <= approvals.Keys
  {
    set id | id in approvals && approvals[id].asset == asset
  }

  function ApprovalsOf(s: Store, asset: Id): (ids: set<Id>)
    ensures ids <= s.approvals.Keys
  {
    RequestsOf(s.approvals, asset)
  }

  /** One more than the highest version filed so far, at least 1. */
  ghost predicate IsNextVersion(s: Store, asset: Id, version: nat) {
    && version >= 1
    && (forall id :: id in ApprovalsOf(s, asset) ==> s.approvals[id].version < version)
    && (version == 1 || exists id :: id in ApprovalsOf(s, asset) && s.approvals[id].version == version - 1)
  }

  function Submit(s: Store, asset: Id, standard: string, route: string, operator: string, id: Id, version: nat): Reply {
    if operator == "" then Reply(s, Conflict)
    else if asset !in s.assets then Reply(s, NotFound)
    else if s.assets[asset].owner != "" && operator != s.assets[asset].owner then Reply(s, Conflict)
    else if s.assets[asset].status != AssetPending then Reply(s, Conflict)
    else if standard !in STANDARDS then Reply(s, Conflict)
    else if !IsRoute(route) then Reply(s, Conflict)
    else if HasActive(s, asset) then Reply(s, Conflict)
    else
      CreateApproval(s, id, Approval(asset, STANDARDS[standard].code, route, operator, ApprovalPending, "", "", version))
  }

  function Review(s: Store, id: Id, reviewer: string, approve: bool, note: string): Reply {
    if reviewer == "" then Reply(s, Conflict)
    else if id !in s.approvals then Reply(s, NotFound)
    else if s.approvals[id].status != ApprovalPending then Reply(s, Conflict)
    else if reviewer == s.approvals[id].applicant then Reply(s, Conflict)
    else if !approve && note == "" then Reply(s, Conflict)
    else ReviewApproval(s, id, if approve then ApprovalApproved else ApprovalRejected, reviewer, note)
  }

  function Withdraw(s: Store, id: Id, operator: string): Reply {
    if operator == "" then Reply(s, Conflict)
    else if id !in s.approvals then Reply(s, NotFound)
    else if operator != s.approvals[id].applicant then Reply(s, Conflict)
    else WithdrawApproval(s, id, operator)
  }

  /** The gate: the active approval that was found is an approved one. */
  predicate Passes(s: Store, found: Option<Id>) {
    found.Some? && found.value in s.approvals && s.approvals[found.value].status == ApprovalApproved
  }

  // ---- disks ----

  datatype DiskInput = DiskInput(serial: string, path: string)

  predicate Complete(input: DiskInput) {
    input.serial != "" && input.path != ""
  }

  /** How many inputs are recorded before the first incomplete one stops the loop. */
  function Accepted(inputs: seq<DiskInput>): (n: nat)
    ensures n <= |inputs|
    ensures forall i :: 0 <= i < n ==> Complete(inputs[i])
    ensures n < |inputs| ==> !Complete(inputs[n])
  {
    if |inputs| == 0 || !Complete(inputs[0]) then 0 else 1 + Accepted(inputs[1..])
  }

  /** The ids generated for the disks of one call: different from each other and from every known disk. */
  predicate FreshIds(s: Store, ids: seq<Id>) {
    && (forall i :: 0 <= i < |ids| ==> ids[i] !in s.disks)
    && (forall i, j :: 0 <= i < j < |ids| ==> ids[i] != ids[j])
  }

  function AddDisks(s: Store, asset: Id, operator: string, inputs: seq<DiskInput>, ids: seq<Id>, n: nat): Store
    requires n <= |inputs| && n <= |ids|
    decreases n
  {
    if n == 0 then s
    else
      CreateDisk(AddDisks(s, asset, operator, inputs, ids, n - 1), ids[n - 1],
                 Disk(asset, inputs[n - 1].serial, inputs[n - 1].path, DiskPulled, operator)).store
  }

  function Pull(s: Store, asset: Id, operator: string, inputs: seq<DiskInput>, ids: seq<Id>, found: Option<Id>): Reply
    requires |ids| == |inputs|
  {
    if operator == "" then Reply(s, Conflict)
    else if |inputs| == 0 then Reply(s, Conflict)
    else if asset !in s.assets then Reply(s, NotFound)
    else if s.assets[asset].status != AssetPending then Reply(s, Conflict)
    else if !Passes(s, found) then Reply(s, Conflict)
    else
      var n := Accepted(inputs);
      var s' := AddDisks(s, asset, operator, inputs, ids, n);
      if n < |inputs| then Reply(s', Conflict) // stops half-way
      else TransitionAsset(s', asset, AssetDiskPulled, operator, PullDisksAction)
  }

  // ---- erasure jobs ----

  function Order(s: Store, disk: Id, standard: string, operator: string, id: Id, now: nat, found: Option<Id>): Reply {
    if operator == "" then Reply(s, Conflict)
    else if standard !in STANDARDS then Reply(s, Conflict)
    else if disk !in s.disks then Reply(s, NotFound)
    else if s.disks[disk].status != DiskPulled && s.disks[disk].status != DiskFailed then Reply(s, Conflict)
    else if !Passes(s, found) then Reply(s, Conflict)
    else if s.approvals[found.value].standard != STANDARDS[standard].code then Reply(s, Conflict)
    else
      var job := Job(disk, STANDARDS[standard].code, JobPending, |JobsOf(s, disk)|, 0, 0, 0, operator, "", 0, now);
      var created := CreateJob(s, id, job, now).store;
      // best effort: the asset moves to erasing with its first job
      if s.disks[disk].status == DiskPulled then
        Reply(TransitionAsset(created, s.disks[disk].asset, AssetErasing, operator, StartErasing).store, Ok)
      else Reply(created, Ok)
  }

  const TERMINATED: Run := Run(0, false, 0, Full, 0, 0, RunFailed)

  /** The jobs of a scrapped disk that are still open; a verifying job is not among them. */
  function OpenJobs(s: Store, disk: Id): (js: set<Id>)
    ensures js <= s.jobs.Keys
  {
    set j | j in s.jobs && s.jobs[j].disk == disk && (s.jobs[j].status == JobPending || s.jobs[j].status == JobRunning)
  }

  function Terminate(s: Store, js: set<Id>): Store
    requires js <= s.jobs.Keys
  {
    s.(jobs := map j | j in s.jobs :: if j in js then s.jobs[j].(status := JobFailed) else s.jobs[j],
       runs := map j | j in s.runs.Keys + js ::
                 if j in js then RunsOf(s, j) + [TERMINATED.(attempt := s.jobs[j].attempt)] else s.runs[j])
  }

  lemma TerminateOne(s: Store, js: set<Id>, j: Id)
    requires js <= s.jobs.Keys && j in s.jobs && j !in js
    ensures CompleteJob(Terminate(s, js), j, JobFailed, TERMINATED).store == Terminate(s, js + {j})
  {
    var one := CompleteJob(Terminate(s, js), j, JobFailed, TERMINATED).store;
    var all := Terminate(s, js + {j});
    assert one.jobs == all.jobs;
    assert one.runs == all.runs;
  }

  function Scrap(s: Store, disk: Id, operator: string): Reply {
    if operator == "" then Reply(s, Conflict)
    else if disk !in s.disks then Reply(s, NotFound)
    else if s.disks[disk].status != DiskFailed && s.disks[disk].status != DiskPulled then Reply(s, Conflict)
    else
      var marked := UpdateDiskStatus(s, disk, DiskScrapped, operator).store;
      var ended := Terminate(marked, OpenJobs(marked, disk));
      var asset := s.disks[disk].asset;
      if asset !in s.assets then Reply(ended, NotFound)
      else if s.assets[asset].status == AssetDiskPulled || s.assets[asset].status == AssetErasing then
        Reply(TransitionAsset(ended, asset, AssetScrapped, operator, ScrapAsset).store, Ok)
      else Reply(ended, Ok)
  }

  // ---- disposal ----

  function Confirm(s: Store, asset: Id, route: string, receiver: string, operator: string, found: Option<Id>): Reply {
    if operator == "" then Reply(s, Conflict)
    else if !IsRoute(route) then Reply(s, Conflict)
    else if receiver == "" then Reply(s, Conflict)
    else if asset !in s.assets then Reply(s, NotFound)
    else if s.assets[asset].status != AssetErasureDone && s.assets[asset].status != AssetScrapped then Reply(s, Conflict)
    else if !Passes(s, found) then Reply(s, Conflict)
    else if route != s.approvals[found.value].route
            && !(s.assets[asset].status == AssetScrapped && route == "destroy") then Reply(s, Conflict)
    else SaveDisposal(s, asset, Disposal(route, receiver, operator))
  }

  // ---- one call of any kind ----

  datatype Call =
    | CallRegister(tag: string, owner: string, operator: string, id: Id)
    | CallSubmit(asset: Id, standard: string, route: string, operator: string, id: Id, version: nat)
    | CallReview(id: Id, reviewer: string, approve: bool, note: string)
    | CallWithdraw(id: Id, operator: string)
    | CallPull(asset: Id, operator: string, inputs: seq<DiskInput>, ids: seq<Id>, found: Option<Id>)
    | CallOrder(disk: Id, standard: string, operator: string, id: Id, now: nat, found: Option<Id>)
    | CallScrap(disk: Id, operator: string)
    | CallConfirm(asset: Id, route: string, receiver: string, operator: string, found: Option<Id>)

  /** Generated ids are fresh, the version is the one the loop computes, the approval is one the lookup can find. */
  ghost predicate Permitted(s: Store, call: Call) {
    match call
    case CallRegister(_, _, _, id) => id !in s.assets
    case CallSubmit(asset, _, _, _, id, version) => id !in s.approvals && IsNextVersion(s, asset, version)
    case CallPull(asset, _, inputs, ids, found) => |ids| == |inputs| && FreshIds(s, ids) && FoundActive(s, asset, found)
    case CallOrder(disk, _, _, id, _, found) =>
      id !in s.jobs && (disk in s.disks ==> FoundActive(s, s.disks[disk].asset, found))
    case CallConfirm(asset, _, _, _, found) => FoundActive(s, asset, found)
    case _ => true
  }

  function Perform(s: Store, call: Call): Store
    requires call.CallPull? ==> |call.ids| == |call.inputs|
  {
    match call
    case CallRegister(tag, owner, operator, id) => Register(s, tag, owner, operator, id).store
    case CallSubmit(asset, standard, route, operator, id, version) =>
      Submit(s, asset, standard, route, operator, id, version).store
    case CallReview(id, reviewer, approve, note) => Review(s, id, reviewer, approve, note).store
    case CallWithdraw(id, operator) => Withdraw(s, id, operator).store
    case CallPull(asset, operator, inputs, ids, found) => Pull(s, asset, operator, inputs, ids, found).store
    case CallOrder(disk, standard, operator, id, now, found) =>
      Order(s, disk, standard, operator, id, now, found).store
    case CallScrap(disk, operator) => Scrap(s, disk, operator).store
    case CallConfirm(asset, route, receiver, operator, found) => Confirm(s, asset, route, receiver, operator, found).store
  }

  /** A pull that does not stop half-way: all of its inputs are complete, or already the first one is not. */
  predicate Whole(call: Call) {
    call.CallPull? ==> Accepted(call.inputs) == 0 || Accepted(call.inputs) == |call.inputs|
  }
}
