/** The index of tags: every asset is found by its own tag, and by no other. */
module Tags {
  import opened Domain
  import opened StoreModel
  import opened History
  import opened ServiceRules
  import opened RunnerModel
  import opened Gate
  import opened CallEffects
  import opened Finality
  import opened Upkeep
  import opened SystemModel
  import opened Verdicts
  import opened Starts

  /** The index of tags is exactly that: one asset for every tag, and its own. */
  ghost predicate Tagged(s: Store) {
    && (forall a :: a in s.assets ==> s.assets[a].tag in s.tags && s.tags[s.assets[a].tag] == a)
    && (forall tag :: tag in s.tags ==> s.tags[tag] in s.assets && s.assets[s.tags[tag]].tag == tag)
  }

  ghost predicate SameTags(s: Store, s': Store) {
    s'.tags == s.tags && s'.assets.Keys == s.assets.Keys && forall a :: a in s.assets ==> s'.assets[a].tag == s.assets[a].tag
  }

  lemma PullTags(s: Store, asset: Id, operator: string, inputs: seq<DiskInput>, ids: seq<Id>, found: Option<Id>)
    requires |ids| == |inputs| && FreshIds(s, ids)
    ensures SameTags(s, Pull(s, asset, operator, inputs, ids, found).store)
  {
    if asset in s.assets {
      var mid := AddDisks(s, asset, operator, inputs, ids, Accepted(inputs));
      AddedDisks(s, asset, operator, inputs, ids, Accepted(inputs));
      MovedTags(mid, asset, AssetDiskPulled, operator, PullDisksAction);
      PullParts(s, asset, operator, inputs, ids, found);
    }
  }

  lemma MovedTags(s: Store, asset: Id, to: AssetStatus, actor: string, action: Action)
    ensures SameTags(s, TransitionAsset(s, asset, to, actor, action).store)
  {
    var s' := TransitionAsset(s, asset, to, actor, action).store;
    if s' != s {
      assert s'.assets == s.assets[asset := s.assets[asset].(status := to)] && s'.tags == s.tags;
    }
  }

  lemma OrderTags(s: Store, disk: Id, standard: string, operator: string, id: Id, now: nat, found: Option<Id>)
    ensures SameTags(s, Order(s, disk, standard, operator, id, now, found).store)
  {
    if Order(s, disk, standard, operator, id, now, found).out == Ok {
      OrderEffect(s, disk, standard, operator, id, now, found);
    }
  }

  lemma ScrapTags(s: Store, disk: Id, operator: string)
    requires DisksKnown(s.disks, s.assets)
    ensures SameTags(s, Scrap(s, disk, operator).store)
  {
    ScrapAccepted(s, disk, operator);
    if Scrap(s, disk, operator).out == Ok {
      ScrapEffect(s, disk, operator);
    }
  }

  lemma ConfirmTags(s: Store, asset: Id, route: string, receiver: string, operator: string, found: Option<Id>)
    ensures SameTags(s, Confirm(s, asset, route, receiver, operator, found).store)
  {
    ConfirmEffect(s, asset, route, receiver, operator, found);
  }

  lemma RequestTags(s: Store, call: Call)
    requires OnRequests(call)
    ensures SameTags(s, Perform(s, call))
  {
    match call
    case CallSubmit(asset, standard, route, operator, id, version) => SubmitOnly(s, asset, standard, route, operator, id, version);
    case CallReview(id, reviewer, approve, note) => ReviewOnly(s, id, reviewer, approve, note);
    case CallWithdraw(id, operator) => WithdrawOnly(s, id, operator);
  }

  lemma CallTags(s: Store, call: Call)
    requires DisksKnown(s.disks, s.assets) && Permitted(s, call) && !call.CallRegister?
    ensures SameTags(s, Perform(s, call))
  {
    if OnRequests(call) {
      RequestTags(s, call);
    } else {
      match call
      case CallPull(asset, operator, inputs, ids, found) => PullTags(s, asset, operator, inputs, ids, found);
      case CallOrder(disk, standard, operator, j, now, found) => OrderTags(s, disk, standard, operator, j, now, found);
      case CallScrap(disk, operator) => ScrapTags(s, disk, operator);
      case CallConfirm(asset, route, receiver, operator, found) => ConfirmTags(s, asset, route, receiver, operator, found);
    }
  }

  lemma MoveTags(s: Store, r: Runner, move: Move, s': Store, pc: Pc)
    requires Knows(s, r) && Step(s, r, move, s', pc)
    ensures SameTags(s, s')
  {
    if RowMove(move) {
      RowMoveOnly(s, r, move, s', pc);
    } else if s'.assets != s.assets {
      MoveEntersDone(s, r, move, s', pc);
    }
  }

  lemma RunTags(sys: System, g: nat, move: Move, pc: Pc, sys': System)
    requires AllStand(sys.store, sys.runs) && Next(sys, MoveRun(g, move, pc), sys')
    ensures SameTags(sys.store, sys'.store)
  {
    assert Stands(sys.store, sys.runs[g]);
    MoveTags(sys.store, sys.runs[g], move, sys'.store, pc);
  }

  lemma OtherTags(sys: System, event: Event, sys': System)
    requires Next(sys, event, sys') && !event.ServiceCall? && !event.MoveRun?
    ensures SameTags(sys.store, sys'.store)
  {}

  lemma RegisterTags(s: Store, tag: string, owner: string, operator: string, id: Id)
    requires Tagged(s) && id !in s.assets
    ensures Tagged(Register(s, tag, owner, operator, id).store)
  {
    RegisterEffect(s, tag, owner, operator, id);
  }

  lemma SameTagsStay(s: Store, s': Store)
    requires Tagged(s) && SameTags(s, s')
    ensures Tagged(s')
  {}

  lemma StepKeepsTagged(sys: System, event: Event, sys': System)
    requires Inv(sys) && Tagged(sys.store) && Next(sys, event, sys')
    ensures Tagged(sys'.store)
  {
    KnownCheckpoints(sys);
    if event.ServiceCall? {
      Called(sys, event, sys');
      CallKeepsTagged(sys.store, event.call);
    } else if event.MoveRun? {
      RunTags(sys, event.run, event.move, event.pc, sys');
      SameTagsStay(sys.store, sys'.store);
    } else {
      OtherTags(sys, event, sys');
      SameTagsStay(sys.store, sys'.store);
    }
  }

  lemma CallKeepsTagged(s: Store, call: Call)
    requires DisksKnown(s.disks, s.assets) && Tagged(s) && Permitted(s, call)
    ensures Tagged(Perform(s, call))
  {
    if call.CallRegister? {
      RegisterTags(s, call.tag, call.owner, call.operator, call.id);
    } else {
      CallTags(s, call);
      SameTagsStay(s, Perform(s, call));
    }
  }

  lemma {:induction false} AlwaysTagged(t: Trace, n: nat)
    requires t.Valid() && n < |t.states|
    ensures Tagged(t.states[n].store)
  {
    if n > 0 {
      AlwaysTagged(t, n - 1);
      TaggedNext(t, n - 1);
    }
  }

  lemma TaggedNext(t: Trace, n: nat)
    requires t.Valid() && n < |t.events| && Tagged(t.states[n].store)
    ensures Tagged(t.states[n + 1].store)
  {
    EveryStateKept(t, n);
    assert t.StepAt(n);
    StepKeepsTagged(t.states[n], t.events[n], t.states[n + 1]);
  }

  /** Registration refuses a tag exactly when an asset carries it; so no two assets ever carry the same one. */
  lemma TagsAreUnique(t: Trace, n: nat, tag: string, owner: string, operator: string, id: Id)
    requires t.Valid() && n < |t.states|
    ensures var s := t.states[n].store;
            && (forall a, b :: a in s.assets && b in s.assets && s.assets[a].tag == s.assets[b].tag ==> a == b)
            && (Register(s, tag, owner, operator, id).out == Ok <==>
                  tag != "" && operator != "" && forall a :: a in s.assets ==> s.assets[a].tag != tag)
  {
    AlwaysTagged(t, n);
    RegisterEffect(t.states[n].store, tag, owner, operator, id);
  }
}
