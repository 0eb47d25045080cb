/** The lifecycle state machines and the built-in overwrite standards. */
module Domain {

  datatype Option<+T> = None | Some(value: T)

  datatype AssetStatus =
    | AssetInService
    | AssetPending
    | AssetDiskPulled
    | AssetErasing
    | AssetErasureDone
    | AssetScrapped
    | AssetDisposed

  datatype DiskStatus = DiskPulled | DiskErasing | DiskVerified | DiskFailed | DiskScrapped

  datatype JobStatus = JobPending | JobRunning | JobVerifying | JobVerified | JobFailed

  datatype ApprovalStatus = ApprovalPending | ApprovalApproved | ApprovalRejected | ApprovalWithdrawn

  /** What one overwrite pass writes. The program keeps the pattern as a string and refuses unknown ones. */
  datatype Pattern = Zeros | Ones | Random | OtherPattern(name: string)

  /** `Sample` is the mode string "sample"; every other mode string behaves like "full". */
  datatype VerifyMode = Full | Sample

  datatype PassSpec = PassSpec(index: nat, pattern: Pattern)

  datatype Standard = Standard(code: string, passes: seq<PassSpec>, mode: VerifyMode)

  const ASSET_TRANSITIONS: map<AssetStatus, set<AssetStatus>> := map[
    AssetInService := {AssetPending},
    AssetPending := {AssetDiskPulled},
    AssetDiskPulled := {AssetErasing, AssetScrapped},
    AssetErasing := {AssetErasureDone, AssetScrapped},
    AssetErasureDone := {AssetDisposed},
    AssetScrapped := {AssetDisposed}
  ]

  const APPROVAL_TRANSITIONS: map<ApprovalStatus, set<ApprovalStatus>> := map[
    ApprovalPending := {ApprovalApproved, ApprovalRejected, ApprovalWithdrawn},
    ApprovalApproved := {ApprovalWithdrawn}
  ]

  predicate CanTransitionAsset(from: AssetStatus, to: AssetStatus) {
    from == to || (from in ASSET_TRANSITIONS && to in ASSET_TRANSITIONS[from])
  }

  predicate CanTransitionApproval(from: ApprovalStatus, to: ApprovalStatus) {
    from == to || (from in APPROVAL_TRANSITIONS && to in APPROVAL_TRANSITIONS[from])
  }

  /** An approval that still gates execution: awaiting review, or approved. */
  predicate Active(status: ApprovalStatus) {
    status == ApprovalPending || status == ApprovalApproved
  }

  /** Position of a status along the lifecycle; `AssetErasureDone` and `AssetScrapped` are alternatives. */
  function Stage(status: AssetStatus): nat {
    match status
    case AssetInService => 0
    case AssetPending => 1
    case AssetDiskPulled => 2
    case AssetErasing => 3
    case AssetErasureDone => 4
    case AssetScrapped => 4
    case AssetDisposed => 5
  }

  const STANDARDS: map<string, Standard> := map[
    "nist_clear" := Standard("nist_clear", [PassSpec(0, Zeros)], Full),
    "nist_purge" := Standard("nist_purge", [PassSpec(0, Ones), PassSpec(1, Random), PassSpec(2, Zeros)], Full),
    "dod_3pass" := Standard("dod_3pass", [PassSpec(0, Zeros), PassSpec(1, Ones), PassSpec(2, Random)], Full),
    "sample_quick" := Standard("sample_quick", [PassSpec(0, Zeros)], Sample)
  ]

  function GetStandard(code: string): Option<Standard> {
    if code in STANDARDS then Some(STANDARDS[code]) else None
  }

  /**
   * What the erasure engine relies on but never checks: a pass stored in a checkpoint by its `index` is
   * later used as a position in the list of passes, and a random final pass is only reproducible when it
   * is verified on the chunk grid, that is in full mode.
   */
  predicate WellFormed(std: Standard) {
    && |std.passes| > 0
    && (forall i :: 0 <= i < |std.passes| ==> std.passes[i].index == i && !std.passes[i].pattern.OtherPattern?)
    && (std.passes[|std.passes| - 1].pattern == Random ==> std.mode == Full)
  }

  lemma BuiltInStandards(code: string)
    requires code in STANDARDS
    ensures GetStandard(code) == Some(STANDARDS[code])
    ensures WellFormed(STANDARDS[code]) && STANDARDS[code].code == code
  {
    var known := {"nist_clear", "nist_purge", "dod_3pass", "sample_quick"};
    assert code in known;
  }

  /** A sequence of statuses in which every change is one the state machine allows. */
  ghost predicate LegalHistory(history: seq<AssetStatus>) {
    forall i :: 0 < i < |history| ==> CanTransitionAsset(history[i - 1], history[i])
  }

  /**
   * The state machine has no way back: along any legal history the stage never drops, and a status that
   * was left is never entered again (so, in particular, a disposed asset stays disposed).
   */
  lemma {:induction false} HistoryNeverReturns(history: seq<AssetStatus>, i: nat, j: nat)
    requires LegalHistory(history) && i <= j < |history|
    ensures Stage(history[i]) <= Stage(history[j])
    ensures Stage(history[i]) == Stage(history[j]) ==> forall k :: i <= k <= j ==> history[k] == history[i]
    decreases j - i
  {
    if i < j {
      HistoryNeverReturns(history, i, j - 1);
      assert CanTransitionAsset(history[j - 1], history[j]);
    }
  }
}
