/** The invariant behind the safety of every run: every allowed action keeps it. */
module LifecycleSafety {
  import opened Common
  import opened Lifecycle

  // ---- the invariant ---------------------------------------------------------------------

  ghost predicate Cleaning(at: Point) {
    match at
    case Find(cleaning, _) => cleaning
    case Attribute(cleaning, _, _) => cleaning
    case Tag(cleaning, _, _) => cleaning
    case FindAgain(cleaning, _, _) => cleaning
    case AddTag(cleaning, _, _) => cleaning
    case Rename(cleaning, _, _, _) => cleaning
    case ExtraTags(cleaning, _, _, _) => cleaning
    case Contents(cleaning, _, _) => cleaning
    case DropLabels(_) => true
    case DropStatus(_) => true
    case DropFinalizer => true
    case _ => false
  }

  /** What may be in the label: the content of a service on duty, or one under which nothing is
      held and nothing will be. */
  ghost predicate LabelFits(svc: Service, lbs: map<nat, Balancer>) {
    svc.hash.Some? && svc.hash.value.spec.reuse.None? ==>
      var c := svc.hash.value;
      if c.deleting then svc.deleting && Held(lbs) == {}
      else if !c.spec.isLoadBalancer then svc.ingress && Findable(lbs) == {}
      else !c.spec.foreignClass
  }

  ghost predicate CloudInv(s: State) {
    && (forall id :: id in s.lbs ==> id < s.nextId)
    && AtMostOne(Findable(s.lbs))
    && (forall id :: id in Held(s.lbs) ==> id in Findable(s.lbs) || (s.at.Tag? && s.at.id == id))
    && (Held(s.lbs) != {} ==> HasFinalizer(s))
  }

  ghost predicate LabelInv(s: State) { s.service.Some? ==> LabelFits(s.service.value, s.lbs) }

  /** The service during a run: its user may edit or delete it, the rest is as the run read it
      but for what the run itself writes. */
  ghost predicate FollowsSnapshot(s: State)
    requires s.service.Some? && HasSnapshot(s.at)
  {
    var svc, snap := s.service.value, s.at.snap;
    && svc.ingress == snap.ingress && svc.hash == (if s.at.DropStatus? then None else snap.hash)
    && (snap.deleting ==> svc.deleting)
  }

  /** A load balancer that was given another name has the tag. */
  ghost predicate Renamed(s: State)
    requires HasSnapshot(s.at)
  {
    var snap := s.at.snap;
    OnDuty(snap) && snap.spec.reuse.None? && HashChanged(snap) && snap.spec.customName
    && !s.at.Find? && !s.at.Attribute? && !s.at.AddTag? ==>
      forall id :: id in Findable(s.lbs) ==> s.lbs[id].tag.Right?
  }

  /** What ties a run's snapshot to the state. */
  ghost predicate SnapshotInv(s: State) {
    HasSnapshot(s.at) ==>
      var snap := s.at.snap;
      && HasFinalizer(s) && snap.finalizer && FollowsSnapshot(s)
      && Harmless(snap, s.lbs) && LabelFits(snap, s.lbs) && Renamed(s)
      && (if Cleaning(s.at) then !OnDuty(snap) else Retired(snap) ==> LeavesNothing(snap, s.lbs))
  }

  /** A run that is about to update a load balancer. */
  ghost predicate Updating(s: State, id: nat)
    requires HasSnapshot(s.at)
  {
    var snap := s.at.snap;
    && !NeedDelete(snap) && HashChanged(snap)
    && (snap.spec.reuse.None? ==> OnDuty(snap) && !Cleaning(s.at) && Findable(s.lbs) <= {id})
    && (snap.spec.reuse.None? && id in s.lbs ==> CanBeFound(s.lbs[id]) && !s.lbs[id].released)
  }

  ghost predicate PointInv(s: State) {
    match s.at
    case Attribute(_, snap, remote) =>
      && (remote.None? ==> snap.spec.reuse.None? && Findable(s.lbs) == {})
      && (remote.Some? && snap.spec.reuse.None? ==> Findable(s.lbs) <= {remote.value})
      && (remote.Some? && snap.spec.reuse.None? && remote.value in s.lbs ==> remote.value in Findable(s.lbs))
    case Tag(cleaning, snap, id) =>
      && !cleaning && OnDuty(snap) && snap.spec.reuse.None? && !snap.ingress && Findable(s.lbs) <= {id}
      && !(snap.spec.customName && snap.spec.claimsTag)
      && (id in s.lbs ==> var lb := s.lbs[id];
            lb.tag.Absent? && lb.defaultNamed == !snap.spec.customName && !lb.released)
    case FindAgain(cleaning, snap, id) => !cleaning && OnDuty(snap) && snap.spec.reuse.None?
    case AddTag(_, _, id) => Updating(s, id)
    case Rename(_, snap, id, _) =>
      Updating(s, id) && (snap.spec.reuse.None? && snap.spec.customName && id in s.lbs ==> s.lbs[id].tag.Right?)
    case ExtraTags(_, _, id, _) => Updating(s, id)
    case Contents(cleaning, snap, _) => Finishing(s, cleaning, snap)
    case AddLabels(snap) => Finishing(s, false, snap)
    case SetStatus => HasFinalizer(s)
    case DropLabels(snap) => Finishing(s, true, snap)
    case DropStatus(snap) => Finishing(s, true, snap)
    case DropFinalizer => Held(s.lbs) == {} && HasFinalizer(s)
    case _ => true
  }

  /** The load balancer itself is dealt with. */
  ghost predicate Finishing(s: State, cleaning: bool, snap: Service) {
    && (NeedDelete(snap) || cleaning ==> Held(s.lbs) == {})
    && (cleaning ==> NeedDelete(snap) || snap.spec.reuse.Some?)
    && (Retired(snap) && !cleaning ==> snap.ingress && Findable(s.lbs) == {})
    && (HandedOver(snap) ==> snap.spec.reuse.Some?)
  }

  /** What a run keeps by itself, whatever the user writes into the service meanwhile. */
  ghost predicate RunInv(s: State) { CloudInv(s) && LabelInv(s) && SnapshotInv(s) && PointInv(s) }

  ghost predicate Inv(s: State) { RunInv(s) && StaysHarmless(s) }

  lemma InvIsSafe(s: State)
    requires Inv(s)
    ensures Safe(s)
  {
  }

  // ---- every allowed action keeps it -----------------------------------------------------

  lemma BeginKeeps(s: State)
    requires Inv(s) && s.at.Idle?
    ensures RunInv(Begin(s))
  {
  }

  lemma AddFinalizerKeeps(s: State)
    requires Inv(s) && s.at.AddFinalizer?
    ensures RunInv(StepAddFinalizer(s))
  {
  }

  lemma FindKeeps(s: State)
    requires RunInv(s) && s.at.Find?
    ensures RunInv(StepFind(s))
  {
  }

  lemma TagKeeps(s: State)
    requires RunInv(s) && s.at.Tag?
    ensures RunInv(StepTag(s))
  {
    if s.at.id in s.lbs { SetsAfterUpdate(s.lbs, s.at.id, StepTag(s).lbs[s.at.id]); }
  }

  lemma AddTagKeeps(s: State, success: bool)
    requires RunInv(s) && s.at.AddTag? && (!success ==> MayPassOver(s))
    ensures RunInv(StepAddTag(s, success))
  {
    if s.at.id in s.lbs { SetsAfterUpdate(s.lbs, s.at.id, StepAddTag(s, success).lbs[s.at.id]); }
  }

  lemma RenamingFits(s: State)
    requires RunInv(s) && s.at.Rename? && s.at.id in s.lbs && s.at.snap.spec.customName
    ensures LabelInv(StepRename(s, true)) && SnapshotInv(StepRename(s, true))
  {
    SetsAfterDimming(s.lbs, s.at.id, s.lbs[s.at.id].(defaultNamed := false));
  }

  lemma RenamingKeeps(s: State)
    requires RunInv(s) && s.at.Rename? && s.at.id in s.lbs && s.at.snap.spec.customName
    ensures RunInv(StepRename(s, true))
  {
    RenamingFits(s);
    SetsAfterDimming(s.lbs, s.at.id, s.lbs[s.at.id].(defaultNamed := false));
  }

  lemma RenameKeeps(s: State, success: bool)
    requires RunInv(s) && s.at.Rename?
    ensures RunInv(StepRename(s, success))
  {
    if s.at.id in s.lbs && s.at.snap.spec.customName && success { RenamingKeeps(s); }
  }

  lemma OverwritingKeeps(s: State)
    requires RunInv(s) && s.at.ExtraTags? && s.at.id in s.lbs && s.at.snap.spec.claimsTag
    ensures RunInv(StepExtraTags(s, true))
  {
    SetsAfterDimming(s.lbs, s.at.id, s.lbs[s.at.id].(tag := Other));
  }

  lemma ExtraTagsKeeps(s: State, success: bool)
    requires RunInv(s) && s.at.ExtraTags?
    ensures RunInv(StepExtraTags(s, success))
  {
    if s.at.id in s.lbs && s.at.snap.spec.claimsTag && success { OverwritingKeeps(s); }
  }

  lemma DropLabelsKeeps(s: State)
    requires RunInv(s) && s.at.DropLabels?
    ensures RunInv(StepDropLabels(s))
  {
  }

  lemma DropKeeps(s: State)
    requires RunInv(s) && (s.at.DropStatus? || s.at.DropFinalizer?)
    ensures RunInv(Advance(s))
  {
  }

  lemma ContentsKeeps(s: State)
    requires RunInv(s) && (s.at.FindAgain? || s.at.Contents?)
    ensures RunInv(Advance(s))
  {
  }

  lemma LabelsKeep(s: State)
    requires RunInv(s) && (s.at.AddLabels? || s.at.SetStatus?)
    ensures RunInv(Advance(s))
  {
  }

  // ---- the attribute step ----------------------------------------------------------------

  ghost predicate Removes(s: State, t: State)
    requires s.at.Attribute?
  {
    && s.at.remote.Some? && NeedDelete(s.at.snap) && s.at.snap.spec.reuse.None? && !s.at.snap.spec.preserve
    && t == s.(lbs := s.lbs - {s.at.remote.value}, at := Applied(s.at.cleaning, s.at.snap))
  }

  ghost predicate Releases(s: State, t: State)
    requires s.at.Attribute?
  {
    && s.at.remote.Some? && s.at.remote.value in s.lbs && NeedDelete(s.at.snap)
    && s.at.snap.spec.reuse.None? && s.at.snap.spec.preserve
    && t == s.(lbs := s.lbs[s.at.remote.value := Released(s.lbs[s.at.remote.value])],
               at := Applied(s.at.cleaning, s.at.snap))
  }

  ghost predicate Adopts(s: State, t: State)
    requires s.at.Attribute?
  {
    && s.at.remote.Some? && s.at.remote.value in s.lbs && !NeedDelete(s.at.snap)
    && s.at.snap.spec.reuse.None? && HashChanged(s.at.snap)
    && t == s.(lbs := s.lbs[s.at.remote.value := s.lbs[s.at.remote.value].(released := false)],
               at := AddTag(s.at.cleaning, s.at.snap, s.at.remote.value))
  }

  ghost predicate Creates(s: State, t: State)
    requires s.at.Attribute?
  {
    && s.at.remote.None? && !NeedDelete(s.at.snap) && !s.at.snap.ingress && HashChanged(s.at.snap)
    && t == s.(lbs := s.lbs[s.nextId := Balancer(Absent, !s.at.snap.spec.customName, false, false)],
               nextId := s.nextId + 1, at := Tag(s.at.cleaning, s.at.snap, s.nextId))
  }

  /** Without a change of load balancers the step only moves on. */
  ghost predicate MovesOn(s: State, t: State)
    requires s.at.Attribute?
  {
    var Attribute(cleaning, snap, remote) := s.at;
    && t == s.(at := t.at)
    && (|| t.at == Idle
        || (t.at == Contents(cleaning, snap, false) && (!HashChanged(snap) || snap.spec.reuse.Some?) && remote.Some?)
        || (t.at == Applied(cleaning, snap) && NeedDelete(snap) && remote.None?)
        || (t.at == Gone(cleaning, snap) && NeedDelete(snap) && remote.Some? && remote.value !in s.lbs
            && snap.spec.reuse.None?)
        || (t.at == AddTag(cleaning, snap, if remote.Some? then remote.value else 0)
            && remote.Some? && snap.spec.reuse.Some?
            && !NeedDelete(snap) && HashChanged(snap)))
  }

  lemma AttributeChanges(s: State)
    requires s.at.Attribute?
    ensures var t := StepAttribute(s);
            MovesOn(s, t) || Removes(s, t) || Releases(s, t) || Adopts(s, t) || Creates(s, t)
  {
  }

  lemma MovingOnKeeps(s: State, t: State)
    requires RunInv(s) && s.at.Attribute? && MovesOn(s, t)
    ensures RunInv(t)
  {
  }

  lemma RemovalKeeps(s: State, t: State)
    requires RunInv(s) && s.at.Attribute? && Removes(s, t)
    ensures RunInv(t)
  {
    SetsAfterRemoval(s.lbs, s.at.remote.value);
  }

  lemma ReleaseKeeps(s: State, t: State)
    requires RunInv(s) && s.at.Attribute? && Releases(s, t)
    ensures RunInv(t)
  {
    var id := s.at.remote.value;
    SetsAfterUpdate(s.lbs, id, t.lbs[id]);
  }

  lemma AdoptionKeeps(s: State, t: State)
    requires RunInv(s) && s.at.Attribute? && Adopts(s, t)
    ensures RunInv(t)
  {
    var id := s.at.remote.value;
    SetsAfterUpdate(s.lbs, id, t.lbs[id]);
  }

  lemma CreationKeeps(s: State, t: State)
    requires RunInv(s) && s.at.Attribute? && Creates(s, t)
    ensures RunInv(t)
  {
    SetsAfterUpdate(s.lbs, s.nextId, t.lbs[s.nextId]);
  }

  lemma AttributeKeeps(s: State)
    requires RunInv(s) && s.at.Attribute?
    ensures RunInv(StepAttribute(s))
  {
    var t := StepAttribute(s);
    AttributeChanges(s);
    if MovesOn(s, t) { MovingOnKeeps(s, t); }
    else if Removes(s, t) { RemovalKeeps(s, t); }
    else if Releases(s, t) { ReleaseKeeps(s, t); }
    else if Adopts(s, t) { AdoptionKeeps(s, t); }
    else { CreationKeeps(s, t); }
  }

  /** A run keeps its part of the invariant. */
  lemma RunKept(s: State)
    requires RunInv(s) && (HasSnapshot(s.at) || s.at.SetStatus? || s.at.DropFinalizer?)
    ensures RunInv(Advance(s))
  {
    match s.at
    case Find(_, _) => FindKeeps(s);
    case Attribute(_, _, _) => AttributeKeeps(s);
    case Tag(_, _, _) => TagKeeps(s);
    case AddTag(_, _, _) => AddTagKeeps(s, true);
    case Rename(_, _, _, _) => RenameKeeps(s, true);
    case ExtraTags(_, _, _, _) => ExtraTagsKeeps(s, true);
    case FindAgain(_, _, _) => ContentsKeeps(s);
    case Contents(_, _, _) => ContentsKeeps(s);
    case AddLabels(_) => LabelsKeep(s);
    case SetStatus => LabelsKeep(s);
    case DropLabels(_) => DropLabelsKeeps(s);
    case DropStatus(_) => DropKeeps(s);
    case DropFinalizer => DropKeeps(s);
  }

  lemma PassOverKept(s: State)
    requires RunInv(s) && MayPassOver(s)
    ensures RunInv(PassOver(s))
  {
    match s.at
    case AddTag(_, _, _) => AddTagKeeps(s, false);
    case Rename(_, _, _, _) => RenameKeeps(s, false);
    case ExtraTags(_, _, _, _) => ExtraTagsKeeps(s, false);
    case _ =>
  }

  lemma VanishingKept(s: State)
    requires RunInv(s) && s.at.Find? && s.at.snap.spec.reuse.Some?
    ensures RunInv(Vanished(s))
  {
    SetsAfterRemoval(s.lbs, s.at.snap.spec.reuse.value);
  }

  // ---- a run nobody disturbs -------------------------------------------------------------

  /** A run whose service the user has not written to since the run read it. */
  ghost predicate Unedited(s: State) {
    if HasSnapshot(s.at) then
      HasFinalizer(s) && s.service.value.spec == s.at.snap.spec && s.service.value.deleting == s.at.snap.deleting
    else HarmlessNow(s)
  }

  lemma UneditedIsHarmless(s: State)
    requires RunInv(s) && Unedited(s)
    ensures HarmlessNow(s)
  {
  }

  lemma UneditedAdvances(s: State)
    requires RunInv(s) && Unedited(s) && HasSnapshot(s.at)
    ensures Unedited(Advance(s))
  {
    UneditedIsHarmless(s);
  }

  lemma UneditedGoesOn(s: State)
    requires RunInv(s) && Unedited(s) && GoesOn(s.at)
    ensures Unedited(PassOver(s))
  {
    UneditedIsHarmless(s);
  }

  lemma UneditedVanishes(s: State)
    requires RunInv(s) && Unedited(s) && s.at.Find? && s.at.snap.spec.reuse.Some?
    ensures Unedited(Vanished(s))
  {
    SetsAfterRemoval(s.lbs, s.at.snap.spec.reuse.value);
  }

  /** Such a run leaves the service harmless. */
  lemma {:induction false} UneditedStaysHarmless(s: State)
    requires RunInv(s) && Unedited(s)
    ensures StaysHarmless(s)
    decreases Rank(s.at)
  {
    UneditedIsHarmless(s);
    if HasSnapshot(s.at) {
      RankFalls(s);
      RunKept(s);
      UneditedAdvances(s);
      UneditedStaysHarmless(Advance(s));
      if GoesOn(s.at) && MayPassOver(s) {
        PassOverKept(s);
        UneditedGoesOn(s);
        UneditedStaysHarmless(PassOver(s));
      }
      if s.at.Find? && s.at.snap.spec.reuse.Some? {
        VanishingKept(s);
        UneditedVanishes(s);
        UneditedStaysHarmless(Vanished(s));
      }
    }
    StaysHarmlessBy(s);
  }

  // ---- edits and deletions ---------------------------------------------------------------

  lemma RestartKeeps(s: State)
    requires Inv(s) && MayStop(s)
    ensures Inv(Restart(s))
  {
  }

  /** A run does not look at whether the service is being deleted. */
  lemma DeletionCommutes(s: State)
    requires HasSnapshot(s.at) && HasFinalizer(s)
    ensures Advance(Next(s, Delete)) == Next(Advance(s), Delete)
  {
    match s.at
    case Find(_, _) =>
    case Attribute(_, _, _) =>
    case AddTag(_, _, _) =>
    case _ =>
  }

  lemma DeletionCommutesElsewhere(s: State)
    requires HasSnapshot(s.at) && HasFinalizer(s)
    ensures GoesOn(s.at) ==> PassOver(Next(s, Delete)) == Next(PassOver(s), Delete)
    ensures s.at.Find? && s.at.snap.spec.reuse.Some? ==> Vanished(Next(s, Delete)) == Next(Vanished(s), Delete)
  {
  }

  lemma DeletionIsHarmless(s: State)
    requires HarmlessNow(s)
    ensures HarmlessNow(Next(s, Delete))
  {
  }

  lemma {:induction false} DeletionStaysHarmless(s: State)
    requires RunInv(s) && StaysHarmless(s)
    ensures StaysHarmless(Next(s, Delete))
    decreases Rank(s.at)
  {
    StaysHarmlessAfter(s);
    if HarmlessNow(s) { DeletionIsHarmless(s); }
    if HasSnapshot(s.at) {
      RankFalls(s);
      DeletionCommutes(s);
      DeletionCommutesElsewhere(s);
      RunKept(s);
      DeletionStaysHarmless(Advance(s));
      if GoesOn(s.at) && MayPassOver(s) {
        PassOverKept(s);
        DeletionStaysHarmless(PassOver(s));
      }
      if s.at.Find? && s.at.snap.spec.reuse.Some? {
        VanishingKept(s);
        DeletionStaysHarmless(Vanished(s));
      }
    }
    StaysHarmlessBy(Next(s, Delete));
  }

  lemma DeleteKeeps(s: State)
    requires Inv(s)
    ensures Inv(Next(s, Delete))
  {
    DeletionStaysHarmless(s);
  }

  lemma EditKeeps(s: State, spec: Spec)
    requires Inv(s) && Allowed(s, Edit(spec))
    ensures Inv(Next(s, Edit(spec)))
  {
  }

  // ---- load balancers that are removed ---------------------------------------------------

  /** Without some load balancers, and with only some of the user's left. */
  ghost function Without(s: State, gone: set<nat>, kept: set<nat>): State { s.(lbs := s.lbs - gone, theirs := kept) }

  ghost predicate CanLose(s: State, gone: set<nat>, kept: set<nat>) {
    kept <= s.theirs && kept !! gone && forall id :: id in gone ==> id < s.nextId
  }

  lemma LossIsHarmless(s: State, gone: set<nat>, kept: set<nat>)
    requires HarmlessNow(s)
    ensures HarmlessNow(Without(s, gone, kept))
  {
    SetsAfterLoss(s.lbs, gone);
  }

  ghost function Failing(s: State): State
    requires s.at.Rename? || s.at.ExtraTags? || s.at.Contents?
  {
    s.(at := s.at.(failed := true))
  }

  /** A run that notes one failure more does no more. */
  lemma {:induction false} FailureStaysHarmless(s: State)
    requires StaysHarmless(s) && (s.at.Rename? || s.at.ExtraTags? || s.at.Contents?)
    ensures StaysHarmless(Failing(s))
    decreases Rank(s.at)
  {
    StaysHarmlessAfter(s);
    if !s.at.Contents? {
      RankFalls(s);
      FailureStaysHarmless(Advance(s));
      FailureStaysHarmless(PassOver(s));
    }
    StaysHarmlessBy(Failing(s));
  }

  /** A run whose load balancer does not exist changes nothing. */
  lemma {:induction false} AbsenceStaysHarmless(s: State)
    requires HarmlessNow(s)
    requires match s.at
             case AddTag(_, _, id) => !Exists(s, id)
             case Rename(_, _, id, failed) => failed && id !in s.lbs
             case ExtraTags(_, _, id, failed) => failed && id !in s.lbs
             case Contents(_, _, failed) => failed
             case _ => false
    ensures StaysHarmless(s)
    decreases Rank(s.at)
  {
    if !s.at.Contents? {
      RankFalls(s);
      AbsenceStaysHarmless(Advance(s));
      AbsenceStaysHarmless(PassOver(s));
    }
    StaysHarmlessBy(s);
  }

  /** Removing load balancers by hand keeps a run harmless. */
  lemma {:induction false} LossStaysHarmless(s: State, gone: set<nat>, kept: set<nat>)
    requires RunInv(s) && StaysHarmless(s) && CanLose(s, gone, kept)
    ensures StaysHarmless(Without(s, gone, kept))
    decreases Rank(s.at), 3
  {
    StaysHarmlessAfter(s);
    if MayStop(s) { LossIsHarmless(s, gone, kept); }
    if HasSnapshot(s.at) {
      RankFalls(s);
      RunKept(s);
      LossStaysHarmless(Advance(s), gone, kept);
      if GoesOn(s.at) && MayPassOver(s) {
        PassOverKept(s);
        LossStaysHarmless(PassOver(s), gone, kept);
      }
      LossStaysHarmlessAt(s, gone, kept);
    } else {
      StaysHarmlessBy(Without(s, gone, kept));
    }
  }

  lemma LossStaysHarmlessAt(s: State, gone: set<nat>, kept: set<nat>)
    requires RunInv(s) && StaysHarmless(s) && CanLose(s, gone, kept) && HasSnapshot(s.at)
    requires StaysHarmless(Without(Advance(s), gone, kept))
    requires GoesOn(s.at) && MayPassOver(s) ==> StaysHarmless(Without(PassOver(s), gone, kept))
    ensures StaysHarmless(Without(s, gone, kept))
    decreases Rank(s.at), 2
  {
    match s.at
    case Find(_, snap) =>
      if snap.spec.reuse.Some? { LossBeforeReuse(s, gone, kept); } else { LossBeforeLookup(s, gone, kept); }
    case Attribute(_, _, _) => LossAtAttribute(s, gone, kept);
    case Tag(_, _, _) => LossAtTag(s, gone, kept);
    case AddTag(_, _, _) => LossAtAddTag(s, gone, kept);
    case _ => LossLater(s, gone, kept);
  }

  lemma LossCommutesLater(s: State, gone: set<nat>, kept: set<nat>)
    requires HasSnapshot(s.at) && !s.at.Find? && !s.at.Attribute? && !s.at.Tag? && !s.at.AddTag?
    ensures var t := Without(s, gone, kept);
            if s.at.FindAgain? && s.at.id in s.lbs && s.at.id in gone then
              Advance(t) == t.(at := Gone(s.at.cleaning, s.at.snap))
            else Advance(t) == Without(Advance(s), gone, kept)
  {
  }

  lemma LossLater(s: State, gone: set<nat>, kept: set<nat>)
    requires RunInv(s) && StaysHarmless(s)
    requires HasSnapshot(s.at) && !s.at.Find? && !s.at.Attribute? && !s.at.Tag? && !s.at.AddTag?
    requires StaysHarmless(Without(Advance(s), gone, kept))
    requires GoesOn(s.at) ==> StaysHarmless(Without(PassOver(s), gone, kept))
    ensures StaysHarmless(Without(s, gone, kept))
  {
    var t := Without(s, gone, kept);
    StaysHarmlessAfter(s);
    LossIsHarmless(s, gone, kept);
    LossCommutesLater(s, gone, kept);
    if GoesOn(s.at) { assert PassOver(t) == Without(PassOver(s), gone, kept); }
    if s.at.FindAgain? { StaysHarmlessBy(Restart(t)); }
    StaysHarmlessBy(t);
  }

  lemma LossAtTag(s: State, gone: set<nat>, kept: set<nat>)
    requires RunInv(s) && StaysHarmless(s) && CanLose(s, gone, kept) && s.at.Tag?
    requires StaysHarmless(Without(Advance(s), gone, kept))
    ensures StaysHarmless(Without(s, gone, kept))
  {
    StaysHarmlessAfter(s);
    var t := Without(s, gone, kept);
    SetsAfterLoss(s.lbs, gone);
    if s.at.id in s.lbs && s.at.id in gone {
      var a := Advance(s);
      assert StaysHarmless(a) && HarmlessNow(a);
      SetsAfterUpdate(s.lbs, s.at.id, a.lbs[s.at.id]);
      assert a.at.id in Findable(a.lbs);
      assert HarmlessNow(t);
      assert Advance(t) == Restart(t);
    } else {
      if MayStop(s) { LossIsHarmless(s, gone, kept); }
      assert Advance(t) == Without(Advance(s), gone, kept);
    }
    StaysHarmlessBy(t);
  }

  lemma LossCommutesAtAddTag(s: State, gone: set<nat>, kept: set<nat>)
    requires CanLose(s, gone, kept) && s.at.AddTag?
    ensures var t, u := Without(s, gone, kept), Without(Advance(s), gone, kept);
            if TagIsDue(t) then Advance(t) == u && PassOver(t) == Without(PassOver(s), gone, kept)
            else u.at.Rename? && (Advance(t) == u || Advance(t) == PassOver(t)) && PassOver(t) == Failing(u)
  {
    var t, u := Without(s, gone, kept), Without(Advance(s), gone, kept);
    if !TagIsDue(t) { assert u.lbs == t.lbs; }
  }

  lemma LossAtAddTag(s: State, gone: set<nat>, kept: set<nat>)
    requires RunInv(s) && StaysHarmless(s) && CanLose(s, gone, kept) && s.at.AddTag?
    requires StaysHarmless(Without(Advance(s), gone, kept))
    requires MayPassOver(s) ==> StaysHarmless(Without(PassOver(s), gone, kept))
    ensures StaysHarmless(Without(s, gone, kept))
  {
    var t := Without(s, gone, kept);
    StaysHarmlessAfter(s);
    LossIsHarmless(s, gone, kept);
    LossCommutesAtAddTag(s, gone, kept);
    if !TagIsDue(t) { FailureStaysHarmless(Without(Advance(s), gone, kept)); }
    StaysHarmlessBy(t);
  }

  /** The load balancer to deal with is gone when the run comes to it. */
  ghost predicate Misses(s: State, gone: set<nat>) {
    s.at.Attribute? && HashChanged(s.at.snap)
    && s.at.remote.Some? && s.at.remote.value in s.lbs && s.at.remote.value in gone
  }

  lemma LossCommutesAtAttribute(s: State, gone: set<nat>, kept: set<nat>)
    requires CanLose(s, gone, kept) && s.at.Attribute?
    requires Misses(s, gone) ==> NeedDelete(s.at.snap) && (s.at.cleaning || s.at.snap.spec.reuse.Some?)
    ensures Advance(Without(s, gone, kept)) == Without(Advance(s), gone, kept)
  {
  }

  lemma LossAtAttribute(s: State, gone: set<nat>, kept: set<nat>)
    requires RunInv(s) && StaysHarmless(s) && CanLose(s, gone, kept) && s.at.Attribute?
    requires StaysHarmless(Without(Advance(s), gone, kept))
    ensures StaysHarmless(Without(s, gone, kept))
  {
    var Attribute(cleaning, snap, remote) := s.at;
    var t := Without(s, gone, kept);
    StaysHarmlessAfter(s);
    LossIsHarmless(s, gone, kept);
    if !Misses(s, gone) || (NeedDelete(snap) && (cleaning || snap.spec.reuse.Some?)) {
      LossCommutesAtAttribute(s, gone, kept);
    } else if snap.spec.reuse.Some? {
      AbsenceStaysHarmless(Advance(t));
    } else {
      StaysHarmlessBy(Restart(t));
    }
    StaysHarmlessBy(t);
  }

  lemma LossBeforeReuse(s: State, gone: set<nat>, kept: set<nat>)
    requires RunInv(s) && StaysHarmless(s) && CanLose(s, gone, kept) && s.at.Find? && s.at.snap.spec.reuse.Some?
    requires StaysHarmless(Without(Advance(s), gone, kept))
    ensures StaysHarmless(Without(s, gone, kept))
    decreases Rank(s.at), 0
  {
    StaysHarmlessAfter(s);
    RankFalls(s);
    var id := s.at.snap.spec.reuse.value;
    var t := Without(s, gone, kept);
    LossIsHarmless(s, gone, kept);
    VanishingKept(s);
    LossStaysHarmless(Vanished(s), gone, kept - {id});
    assert Vanished(t) == Without(Vanished(s), gone, kept - {id});
    if Exists(t, id) || !Exists(s, id) {
      assert Advance(t) == Without(Advance(s), gone, kept);
    } else {
      assert kept - {id} == kept;
      assert Advance(t) == Vanished(t);
    }
    StaysHarmlessBy(t);
  }

  lemma LossCommutesAtLookup(s: State, gone: set<nat>, kept: set<nat>)
    requires CloudInv(s) && s.at.Find? && s.at.snap.spec.reuse.None?
    ensures var t := Without(s, gone, kept);
            if Findable(t.lbs) == Findable(s.lbs) then Advance(t) == Without(Advance(s), gone, kept)
            else Findable(s.lbs) != {} && Findable(s.lbs) <= gone && Findable(t.lbs) == {}
                 && Advance(t) == t.(at := Attribute(s.at.cleaning, s.at.snap, None))
  {
    var t := Without(s, gone, kept);
    SetsAfterLoss(s.lbs, gone);
    LookSucceeds(s, s.at.snap);
    LookSucceeds(t, s.at.snap);
    if Findable(t.lbs) != Findable(s.lbs) {
      var id :| id in Findable(s.lbs) && id in gone;
      assert Findable(s.lbs) <= {id};
    }
  }

  lemma LossBeforeLookup(s: State, gone: set<nat>, kept: set<nat>)
    requires RunInv(s) && StaysHarmless(s) && CanLose(s, gone, kept) && s.at.Find? && s.at.snap.spec.reuse.None?
    requires StaysHarmless(Without(Advance(s), gone, kept))
    ensures StaysHarmless(Without(s, gone, kept))
    decreases Rank(s.at), 1
  {
    var snap := s.at.snap;
    var t := Without(s, gone, kept);
    StaysHarmlessAfter(s);
    LossIsHarmless(s, gone, kept);
    LossCommutesAtLookup(s, gone, kept);
    if Findable(t.lbs) == Findable(s.lbs) {
      StaysHarmlessBy(t);
    } else if NeedDelete(snap) {
      LossBeforeDeletion(s, gone, kept);
    } else if HashChanged(snap) && !snap.ingress {
      CreationStaysHarmless(s, t);
    } else {
      RefusalStaysHarmless(Advance(t));
      StaysHarmlessBy(t);
    }
  }

  /** A run that has nothing to delete and may create nothing ends. */
  lemma RefusalStaysHarmless(s: State)
    requires s.at.Attribute? && s.at.remote.None? && !NeedDelete(s.at.snap)
    requires (HashChanged(s.at.snap) ==> s.at.snap.ingress) && HarmlessNow(s)
    ensures StaysHarmless(s)
  {
    StaysHarmlessBy(Restart(s));
    StaysHarmlessBy(s);
  }

  lemma LossBeforeDeletion(s: State, gone: set<nat>, kept: set<nat>)
    requires RunInv(s) && StaysHarmless(s) && CanLose(s, gone, kept)
    requires s.at.Find? && s.at.snap.spec.reuse.None? && NeedDelete(s.at.snap)
    requires Findable(s.lbs) != {} && Findable(s.lbs) <= gone
    ensures StaysHarmless(Without(s, gone, kept))
    decreases Rank(s.at), 0
  {
    var t, a := Without(s, gone, kept), Advance(s);
    var b := Advance(a);
    DeletionsMeet(s, gone, kept);
    RunKept(s);
    RunKept(a);
    StaysHarmlessAfter(s);
    StaysHarmlessAfter(a);
    StaysHarmlessAfter(b);
    if b.at.Contents? {
      RunKept(b);
      LossStaysHarmless(Advance(b), gone, kept);
    } else {
      LossStaysHarmless(b, gone, kept);
    }
    LossIsHarmless(s, gone, kept);
    StaysHarmlessBy(Advance(t));
    StaysHarmlessBy(t);
  }

  /** A deletion that finds nothing any more comes to where the other one does. */
  lemma DeletionsMeet(s: State, gone: set<nat>, kept: set<nat>)
    requires RunInv(s) && s.at.Find? && s.at.snap.spec.reuse.None? && NeedDelete(s.at.snap)
    requires Findable(s.lbs) != {} && Findable(s.lbs) <= gone
    ensures var t, a := Without(s, gone, kept), Advance(s);
            var b := Advance(a);
            var c := if b.at.Contents? then Advance(b) else b;
            && a.at.Attribute? && HasSnapshot(b.at) && (b.at.Contents? ==> HasSnapshot(c.at))
            && Rank(c.at) < Rank(s.at) && c.theirs == s.theirs && c.nextId == s.nextId
            && Advance(t) == t.(at := Attribute(s.at.cleaning, s.at.snap, None))
            && Advance(Advance(t)) == Without(c, gone, kept)
  {
    SetsAfterLoss(s.lbs, gone);
    LookSucceeds(s, s.at.snap);
    LookSucceeds(Without(s, gone, kept), s.at.snap);
  }

  /** What is new by a spec is as safe as what is updated by it. */
  lemma NewIsNameSafe(lb: Balancer, spec: Spec, other: Spec)
    requires CanBeFound(lb) && NameSafe(lb, spec) && NameSafe(UpdatedBy(lb, spec), other)
    ensures NameSafe(NewBy(spec), other)
    ensures !spec.customName ==> NameSafe(Balancer(Absent, true, false, false), other)
  {
  }

  /** A service that is harmless with one load balancer to be found is so with another one in its
      place that is as safe. */
  lemma ReplacedIsHarmless(svc: Service, lbs: map<nat, Balancer>, id: nat,
                           lbs': map<nat, Balancer>, made: nat, lb: Balancer)
    requires Harmless(svc, lbs) && id in Held(lbs) && id in Findable(lbs)
    requires Findable(lbs') == {}
    requires NameSafe(lbs[id], svc.spec) ==> NameSafe(lb, svc.spec)
    ensures Harmless(svc, lbs'[made := lb])
  {
    SetsAfterUpdate(lbs', made, lb);
  }

  /** What a finished update says about the service. */
  lemma UpdateStaysHarmless(s: State)
    requires StaysHarmless(s) && s.at.AddTag? && !s.at.cleaning && s.at.id in s.lbs && s.at.snap.spec.reuse.None?
             && s.service.Some?
    ensures var lbs := Run(s, 3).lbs;
            && Harmless(s.service.value, lbs)
            && Harmless(s.service.value.(hash := Some(ContentOf(s.at.snap))), lbs)
  {
    UpdateRuns(s);
    var a := Advance(s);
    var b := Advance(a);
    RunThree(s, a, b, Advance(b));
    StaysHarmlessAfter(s);
    StaysHarmlessAfter(a);
    StaysHarmlessAfter(b);
    ContentsStayHarmless(Advance(b));
  }

  lemma ContentsStayHarmless(s: State)
    requires StaysHarmless(s) && s.at.Contents? && !s.at.cleaning && !s.at.failed && s.service.Some?
    ensures Harmless(s.service.value, s.lbs)
    ensures Harmless(s.service.value.(hash := Some(ContentOf(s.at.snap))), s.lbs)
  {
    StaysHarmlessAfter(s);
    StaysHarmlessAfter(Advance(s));
    StaysHarmlessAfter(Advance(Advance(s)));
  }

  lemma CreatedStaysHarmless(s: State)
    requires s.at.FindAgain? && !s.at.cleaning && s.at.id in s.lbs && s.service.Some?
    requires Harmless(s.service.value, s.lbs)
             && Harmless(s.service.value.(hash := Some(ContentOf(s.at.snap))), s.lbs)
    ensures StaysHarmless(s)
  {
    var a := Advance(s);
    var b := Advance(a);
    StaysHarmlessBy(Advance(b));
    StaysHarmlessBy(b);
    StaysHarmlessBy(a);
    StaysHarmlessBy(s);
  }

  /** A run that has a load balancer to update also has a harmless one to create. */
  lemma UpdateAllowsCreation(s: State, lbs: map<nat, Balancer>, made: nat)
    requires s.at.AddTag? && !s.at.cleaning && s.at.snap.spec.reuse.None? && s.service.Some? && StaysHarmless(s)
    requires s.at.id in Held(s.lbs) && s.at.id in Findable(s.lbs) && NameSafe(s.lbs[s.at.id], s.at.snap.spec)
    requires Findable(lbs) == {}
    ensures var svc, snap := s.service.value, s.at.snap;
            && Harmless(svc, lbs[made := NewBy(snap.spec)])
            && Harmless(svc.(hash := Some(ContentOf(snap))), lbs[made := NewBy(snap.spec)])
            && (!snap.spec.customName ==> Harmless(svc, lbs[made := Balancer(Absent, true, false, false)]))
  {
    var svc, snap, id := s.service.value, s.at.snap, s.at.id;
    UpdateRuns(s);
    UpdateStaysHarmless(s);
    var after := s.lbs[id := UpdatedBy(s.lbs[id], snap.spec)];
    NameSafeIsExact(s.lbs[id], snap.spec);
    if NameSafe(after[id], svc.spec) { NewIsNameSafe(s.lbs[id], snap.spec, svc.spec); }
    ReplacedIsHarmless(svc, after, id, lbs, made, NewBy(snap.spec));
    ReplacedIsHarmless(svc.(hash := Some(ContentOf(snap))), after, id, lbs, made, NewBy(snap.spec));
    if !snap.spec.customName {
      ReplacedIsHarmless(svc, after, id, lbs, made, Balancer(Absent, true, false, false));
    }
  }

  /** A run about to create. */
  lemma CreationFrom(t: State)
    requires t.at.Find? && !t.at.cleaning && !NeedDelete(t.at.snap) && t.at.snap.spec.reuse.None? && t.service.Some?
    requires HashChanged(t.at.snap) && !t.at.snap.ingress && Findable(t.lbs) == {} && HarmlessNow(t)
    requires var svc, snap, made := t.service.value, t.at.snap, t.nextId;
             && Harmless(svc, t.lbs[made := NewBy(snap.spec)])
             && Harmless(svc.(hash := Some(ContentOf(snap))), t.lbs[made := NewBy(snap.spec)])
             && (!snap.spec.customName ==> Harmless(svc, t.lbs[made := Balancer(Absent, true, false, false)]))
    ensures StaysHarmless(t)
  {
    LookSucceeds(t, t.at.snap);
    var a := Advance(t);
    var b := Advance(a);
    var c := Advance(b);
    assert c.lbs == t.lbs[t.nextId := NewBy(t.at.snap.spec)];
    CreatedStaysHarmless(c);
    StaysHarmlessBy(b);
    StaysHarmlessBy(a);
    StaysHarmlessBy(t);
  }

  /** A run that finds nothing any more creates what it would have updated. */
  lemma CreationStaysHarmless(s: State, t: State)
    requires RunInv(s) && StaysHarmless(s) && s.at.Find? && s.at.snap.spec.reuse.None? && !NeedDelete(s.at.snap)
    requires HashChanged(s.at.snap) && !s.at.snap.ingress && Findable(s.lbs) != {}
    requires t == s.(lbs := t.lbs, theirs := t.theirs) && Findable(t.lbs) == {} && HarmlessNow(t)
    ensures StaysHarmless(t)
  {
    AdoptionComes(s);
    StaysHarmlessAfter(s);
    StaysHarmlessAfter(Advance(s));
    UpdateAllowsCreation(Advance(Advance(s)), t.lbs, t.nextId);
    CreationFrom(t);
  }

  lemma AdoptionComes(s: State)
    requires RunInv(s) && s.at.Find? && s.at.snap.spec.reuse.None? && !NeedDelete(s.at.snap)
    requires HashChanged(s.at.snap) && !s.at.snap.ingress && Findable(s.lbs) != {}
    ensures var a := Advance(s);
            var b := Advance(a);
            && !s.at.cleaning && a.at.Attribute? && b.at.AddTag? && !b.at.cleaning && b.at.snap == s.at.snap
            && b.service == s.service && b.at.id in Held(b.lbs) && b.at.id in Findable(b.lbs)
            && NameSafe(b.lbs[b.at.id], s.at.snap.spec)
  {
    LookSucceeds(s, s.at.snap);
  }

  lemma RemovalKeepsRun(s: State, id: nat)
    requires RunInv(s)
    ensures RunInv(Next(s, Remove(id)))
  {
    SetsAfterRemoval(s.lbs, id);
  }

  lemma RemoveKeeps(s: State, id: nat)
    requires Inv(s)
    ensures Inv(Next(s, Remove(id)))
  {
    RemovalKeepsRun(s, id);
    var gone: set<nat> := if id < s.nextId then {id} else {};
    assert Next(s, Remove(id)) == Without(s, gone, s.theirs - {id});
    LossStaysHarmless(s, gone, s.theirs - {id});
  }

  // ---- crowding and the rest -------------------------------------------------------------

  lemma CrowdKeeps(s: State, id: nat, crowded: bool)
    requires RunInv(s) && UpdateFits(Next(s, Crowd(id, crowded)))
    ensures RunInv(Next(s, Crowd(id, crowded)))
  {
    if id in s.lbs { SetsAfterCrowding(s.lbs, id, crowded); }
  }

  lemma StepKeeps(s: State)
    requires Inv(s)
    ensures Inv(Advance(s))
  {
    match s.at
    case Idle =>
      BeginKeeps(s);
      UneditedStaysHarmless(Begin(s));
    case AddFinalizer =>
      AddFinalizerKeeps(s);
      UneditedStaysHarmless(StepAddFinalizer(s));
    case _ => RunKept(s);
  }

  lemma SwallowKeeps(s: State)
    requires Inv(s) && MayPassOver(s)
    ensures Inv(PassOver(s))
  {
    PassOverKept(s);
  }

  lemma InvKept(s: State, a: Action)
    requires Inv(s) && Allowed(s, a)
    ensures Inv(Next(s, a))
  {
    match a
    case Step => StepKeeps(s);
    case Swallow => SwallowKeeps(s);
    case Stop => RestartKeeps(s);
    case Edit(spec) => EditKeeps(s, spec);
    case Delete => DeleteKeeps(s);
    case Remove(id) => RemoveKeeps(s, id);
    case Crowd(id, crowded) => CrowdKeeps(s, id, crowded);
  }

  lemma {:induction false} InvAlong(s: State, actions: seq<Action>)
    requires Inv(s) && AllAllowed(s, actions)
    ensures Inv(Exec(s, actions))
    decreases |actions|
  {
    if actions != [] {
      InvKept(s, actions[0]);
      InvAlong(Next(s, actions[0]), actions[1..]);
    }
  }

  /** Safety over every run: since a part of a run is a run, it holds at every moment of it. */
  lemma EveryRunIsSafe(s: State, actions: seq<Action>)
    requires Initial(s) && AllAllowed(s, actions)
    ensures Safe(Exec(s, actions))
  {
    InvAlong(s, actions);
    InvIsSafe(Exec(s, actions));
  }
}
