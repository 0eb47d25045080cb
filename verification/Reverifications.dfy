/** A whole re-verification, as four or five steps of the system: what they add up to when nobody else acts in between. */
module Reverifications {
  import opened Domain
  import opened StoreModel
  import opened SystemModel

  /** It begins, gets a slot, fails the disk if it found a difference, and logs its result. */
  function CheckEvents(v: nat, inst: string, disk: Id, operator: string, fails: bool): seq<Event> {
    [BeginCheck(v, inst, disk, operator), CheckSlot(v)] + (if fails then [CheckFails(v)] else []) + [CheckLogs(v)]
  }

  /** The disk may be checked: it has been wiped, or failed, and has a job. */
  predicate MayCheck(s: Store, disk: Id) {
    disk in s.disks && (s.disks[disk].status == DiskVerified || s.disks[disk].status == DiskFailed) && JobsOf(s, disk) != {}
  }

  ghost predicate HasSlot(sys: System, inst: string) {
    inst in sys.live && sys.live[inst].busy < sys.live[inst].workers
  }

  lemma Began(t: Trace, v: nat, inst: string, disk: Id, operator: string) returns (t': Trace)
    requires t.Legal() && v !in t.Last().checks && HasSlot(t.Last(), inst) && MayCheck(t.Last().store, disk)
    ensures Extended(t, BeginCheck(v, inst, disk, operator), t')
    ensures t'.Last() == t.Last().(checks := t.Last().checks[v := Check(inst, disk, operator, Waiting)])
  {
    var sys := t.Last();
    var sys' := sys.(checks := sys.checks[v := Check(inst, disk, operator, Waiting)]);
    Go(t, BeginCheck(v, inst, disk, operator), sys');
    t' := t.Then(BeginCheck(v, inst, disk, operator), sys');
  }

  lemma GotSlot(t: Trace, v: nat) returns (t': Trace)
    requires t.Legal() && v in t.Last().checks && t.Last().checks[v].pc == Waiting && HasSlot(t.Last(), t.Last().checks[v].inst)
    ensures Extended(t, CheckSlot(v), t')
    ensures var sys := t.Last(); var c := sys.checks[v]; var i := sys.live[c.inst];
            t'.Last() == sys.(live := sys.live[c.inst := i.(busy := i.busy + 1)], checks := sys.checks[v := c.(pc := Reading)])
  {
    var sys := t.Last();
    var c := sys.checks[v];
    var sys' := With(sys, c.inst, sys.live[c.inst].(busy := sys.live[c.inst].busy + 1)).(checks := sys.checks[v := c.(pc := Reading)]);
    Go(t, CheckSlot(v), sys');
    t' := t.Then(CheckSlot(v), sys');
  }

  lemma Failed(t: Trace, v: nat) returns (t': Trace)
    requires t.Legal() && v in t.Last().checks && t.Last().checks[v].pc == Reading && t.Last().checks[v].disk in t.Last().store.disks
    ensures Extended(t, CheckFails(v), t')
    ensures var sys := t.Last(); var c := sys.checks[v]; var s := sys.store;
            t'.Last() == sys.(checks := sys.checks[v := c.(pc := Logging)],
                              store := s.(disks := s.disks[c.disk := s.disks[c.disk].(status := DiskFailed)],
                                          audit := s.audit + [Audit(c.operator, SetDiskStatus(DiskFailed), DiskEntity, c.disk)]))
  {
    var sys := t.Last();
    var c := sys.checks[v];
    var sys' := sys.(store := UpdateDiskStatus(sys.store, c.disk, DiskFailed, c.operator).store,
                     checks := sys.checks[v := c.(pc := Logging)]);
    Go(t, CheckFails(v), sys');
    t' := t.Then(CheckFails(v), sys');
  }

  lemma Logged(t: Trace, v: nat) returns (t': Trace)
    requires t.Legal() && v in t.Last().checks && t.Last().checks[v].pc != Waiting
    requires var inst := t.Last().checks[v].inst; inst in t.Last().live && t.Last().live[inst].busy > 0
    ensures Extended(t, CheckLogs(v), t')
    ensures var sys := t.Last(); var c := sys.checks[v]; var i := sys.live[c.inst];
            t'.Last() == sys.(live := sys.live[c.inst := i.(busy := i.busy - 1)], checks := sys.checks - {v},
                              store := sys.store.(audit := sys.store.audit + [Audit(c.operator, ReverifyDisk, DiskEntity, c.disk)]))
  {
    var sys := t.Last();
    var sys' := Dropped(sys, v).(store := AppendAudit(sys.store, CheckRow(sys.checks[v])).store);
    Go(t, CheckLogs(v), sys');
    t' := t.Then(CheckLogs(v), sys');
  }

  /** The store after a re-verification: the disk failed if a difference was found, and the rows of the log. */
  ghost predicate Rechecked(s: Store, s': Store, disk: Id, operator: string, fails: bool)
    requires disk in s.disks
  {
    && s'.disks == (if fails then s.disks[disk := s.disks[disk].(status := DiskFailed)] else s.disks)
    && s'.audit == s.audit + (if fails then [Audit(operator, SetDiskStatus(DiskFailed), DiskEntity, disk)] else [])
                   + [Audit(operator, ReverifyDisk, DiskEntity, disk)]
    && s' == s.(disks := s'.disks, audit := s'.audit)
  }

  lemma Concluded(t: Trace, v: nat, fails: bool, s': Store) returns (t': Trace)
    requires t.Legal() && v in t.Last().checks && t.Last().checks[v].pc == Reading
    requires var c := t.Last().checks[v];
             && c.inst in t.Last().live && t.Last().live[c.inst].busy > 0
             && c.disk in t.Last().store.disks && Rechecked(t.Last().store, s', c.disk, c.operator, fails)
    ensures t'.Legal() && t'.states[0] == t.states[0]
    ensures t'.events == t.events + (if fails then [CheckFails(v)] else []) + [CheckLogs(v)]
    ensures var sys := t.Last(); var c := sys.checks[v]; var i := sys.live[c.inst];
            t'.Last() == sys.(live := sys.live[c.inst := i.(busy := i.busy - 1)], checks := sys.checks - {v}, store := s')
  {
    if fails {
      t' := Failed(t, v);
      assert t'.Last().checks - {v} == t.Last().checks - {v};
      t' := Logged(t', v);
    } else {
      t' := Logged(t, v);
    }
  }

  ghost predicate GoesFrom(t: Trace, sys: System, events: seq<Event>, s': Store) {
    t.Legal() && t.states[0] == sys && t.events == events && t.Last() == sys.(store := s')
  }

  /** Its steps are steps of the system: they leave slots, runs and other re-verifications as they found them. */
  lemma CheckSteps(sys: System, v: nat, inst: string, disk: Id, operator: string, fails: bool, s': Store) returns (t: Trace)
    requires v !in sys.checks && HasSlot(sys, inst) && MayCheck(sys.store, disk) && Rechecked(sys.store, s', disk, operator, fails)
    ensures GoesFrom(t, sys, CheckEvents(v, inst, disk, operator, fails), s')
  {
    t := Began(Here(sys), v, inst, disk, operator);
    t := GotSlot(t, v);
    t := Concluded(t, v, fails, s');
    Restored(sys, t.Last(), v, inst, s');
  }

  lemma Restored(sys: System, sys': System, v: nat, inst: string, s': Store)
    requires v !in sys.checks && inst in sys.live && sys'.store == s' && sys'.checks.Keys == sys.checks.Keys
    requires forall w :: w in sys.checks ==> sys'.checks[w] == sys.checks[w]
    requires sys'.live.Keys == sys.live.Keys && forall i :: i in sys.live ==> sys'.live[i] == sys.live[i]
    requires sys'.runs == sys.runs && sys'.now == sys.now && sys'.staleAfter == sys.staleAfter
    ensures sys' == sys.(store := s')
  {
    assert sys'.checks == sys.checks && sys'.live == sys.live;
  }

  ghost predicate CanBegin(sys: System, v: nat, s: Store, inst: string) {
    sys.store == s && v !in sys.checks && HasSlot(sys, inst)
  }

  ghost predicate Leads(sys: System, events: seq<Event>, s': Store) {
    exists t :: GoesFrom(t, sys, events, s')
  }

  /** From every state of the system with this store and a free slot, the steps of a re-verification lead to the new store. */
  ghost predicate IsCheck(s: Store, s': Store, inst: string, disk: Id, operator: string, fails: bool) {
    forall sys: System, v: nat :: CanBegin(sys, v, s, inst) ==> Leads(sys, CheckEvents(v, inst, disk, operator, fails), s')
  }

  lemma RecheckedIsCheck(s: Store, s': Store, inst: string, disk: Id, operator: string, fails: bool)
    requires MayCheck(s, disk) && Rechecked(s, s', disk, operator, fails)
    ensures IsCheck(s, s', inst, disk, operator, fails)
  {
    forall sys: System, v: nat | CanBegin(sys, v, s, inst)
      ensures Leads(sys, CheckEvents(v, inst, disk, operator, fails), s')
    {
      var t := CheckSteps(sys, v, inst, disk, operator, fails, s');
    }
  }
}
