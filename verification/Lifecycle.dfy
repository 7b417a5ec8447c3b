/** The life of one service's load balancer as a state machine. A reconcile advances one call
    at a time and may stop after any of them; in between, the user edits or deletes the
    service, and changes load balancers behind the controller's back. */
module Lifecycle {
  import opened Common

  // ---- state -----------------------------------------------------------------------------

  /** What the user writes: the type, another controller's class, the id of a load balancer
      to reuse, the preserve mark, a load balancer name other than the default one, an
      additional tag that gives the lookup tag another value, and everything else. */
  datatype Spec = Spec(isLoadBalancer: bool, foreignClass: bool, reuse: Option<nat>, preserve: bool,
                       customName: bool, claimsTag: bool, revision: nat)

  /** What the service hash covers. The hash is taken to be injective, so a label is its content. */
  datatype Content = Content(spec: Spec, deleting: bool)

  datatype Service = Service(spec: Spec, deleting: bool, finalizer: bool, hash: Option<Content>, ingress: bool)

  /** The lookup tag of a load balancer: none, the one looked for, or one with another value. */
  datatype LookupTag = Absent | Right | Other

  /** A load balancer the controller created. It is crowded when it has as many tags as are
      allowed, and released once preserved on deletion. */
  datatype Balancer = Balancer(tag: LookupTag, defaultNamed: bool, crowded: bool, released: bool)

  /** Where a reconcile stands. A snapshot is the service as the run read it, cleaning says
      which of the two procedures it is in, and failed that some update was not made. */
  datatype Point =
    | Idle
    | AddFinalizer
    | Find(cleaning: bool, snap: Service)
    | Attribute(cleaning: bool, snap: Service, remote: Option<nat>)
    | Tag(cleaning: bool, snap: Service, id: nat)
    | FindAgain(cleaning: bool, snap: Service, id: nat)
    | AddTag(cleaning: bool, snap: Service, id: nat)
    | Rename(cleaning: bool, snap: Service, id: nat, failed: bool)
    | ExtraTags(cleaning: bool, snap: Service, id: nat, failed: bool)
    | Contents(cleaning: bool, snap: Service, failed: bool)
    | AddLabels(snap: Service)
    | SetStatus
    | DropLabels(snap: Service)
    | DropStatus(snap: Service)
    | DropFinalizer

  /** theirs are the load balancers of the user. */
  datatype State = State(service: Option<Service>, lbs: map<nat, Balancer>, nextId: nat, theirs: set<nat>, at: Point)

  datatype Action =
    | Step
    | Swallow      // a failure that the run notes and goes on from
    | Stop         // a failure that ends the run, or a restart of the controller
    | Edit(spec: Spec)
    | Delete
    | Remove(id: nat)
    | Crowd(id: nat, crowded: bool)

  ghost function ContentOf(svc: Service): Content { Content(svc.spec, svc.deleting) }

  ghost predicate NeedDelete(svc: Service) { svc.deleting || !svc.spec.isLoadBalancer }

  ghost predicate NeedClb(spec: Spec) { spec.isLoadBalancer && !spec.foreignClass }

  ghost predicate HashChanged(svc: Service) { svc.hash != Some(ContentOf(svc)) }

  // ---- lookup ----------------------------------------------------------------------------

  datatype Lookup = Found(id: nat) | NotFound | Missing | Ambiguous

  ghost function Pick(ids: set<nat>): (r: Lookup)
    ensures r.NotFound? <==> ids == {}
    ensures r.Found? ==> ids == {r.id}
    ensures !r.Missing? && (r.Ambiguous? ==> exists a, b :: a in ids && b in ids && a != b)
  {
    if ids == {} then NotFound else
    var x :| x in ids;
    if ids == {x} then Found(x) else
    assert !(ids <= {x});
    Ambiguous
  }

  ghost function Tagged(lbs: map<nat, Balancer>): set<nat> { set id | id in lbs && lbs[id].tag.Right? }

  ghost function Named(lbs: map<nat, Balancer>): set<nat> { set id | id in lbs && lbs[id].defaultNamed }

  /** By the id to reuse, else by tag, else by default name. */
  ghost function Look(snap: Service, lbs: map<nat, Balancer>, theirs: set<nat>): (r: Lookup)
    ensures snap.spec.reuse.None? ==> !r.Missing?
    ensures r.Found? && snap.spec.reuse.None? ==> r.id in Findable(lbs)
    ensures r.NotFound? ==> snap.spec.reuse.None? && Findable(lbs) == {}
  {
    match snap.spec.reuse
    case Some(id) => if id in lbs || id in theirs then Found(id) else Missing
    case None =>
      var byTag := Pick(Tagged(lbs));
      if byTag.NotFound? then Pick(Named(lbs)) else byTag
  }

  // ---- steps -----------------------------------------------------------------------------

  ghost function Restart(s: State): State { s.(at := Idle) }

  /** What follows a run's apply when it succeeded. */
  ghost function Applied(cleaning: bool, snap: Service): Point {
    if cleaning then DropLabels(snap) else AddLabels(snap)
  }

  /** An apply that failed because the load balancer does not exist: cleaning goes on. */
  ghost function Gone(cleaning: bool, snap: Service): Point {
    if cleaning then DropLabels(snap) else Idle
  }

  ghost function Begin(s: State): State {
    if s.service.None? then s
    else
      var svc := s.service.value;
      if NeedDelete(svc) || !NeedClb(svc.spec) then
        if svc.finalizer then s.(at := Find(true, svc)) else s
      else s.(at := AddFinalizer)
  }

  /** Adding the finalizer reads the service afresh; a service being deleted takes no new one. */
  ghost function StepAddFinalizer(s: State): State {
    if s.service.None? || (s.service.value.deleting && !s.service.value.finalizer) then Restart(s)
    else
      var svc := s.service.value.(finalizer := true);
      s.(service := Some(svc), at := Find(false, svc))
  }

  ghost function StepFind(s: State): State
    requires s.at.Find?
  {
    var Find(cleaning, snap) := s.at;
    match Look(snap, s.lbs, s.theirs)
    case Found(id) => s.(at := Attribute(cleaning, snap, Some(id)))
    case NotFound => s.(at := Attribute(cleaning, snap, None))
    case Missing => s.(at := Gone(cleaning, snap))
    case Ambiguous => Restart(s)
  }

  /** The lookup tag goes on release; one with another value is not the service's to remove. */
  ghost function Released(lb: Balancer): Balancer {
    lb.(tag := if lb.tag.Right? then Absent else lb.tag, released := true)
  }

  /** Deleting, creating, or turning to the update of what was found; the hash of the service
      gates it all. */
  ghost function StepAttribute(s: State): State
    requires s.at.Attribute?
  {
    var Attribute(cleaning, snap, remote) := s.at;
    if !HashChanged(snap) then
      if remote.Some? then s.(at := Contents(cleaning, snap, false))
      else if NeedDelete(snap) then s.(at := Applied(cleaning, snap))
      else Restart(s)
    else if NeedDelete(snap) then
      if snap.spec.reuse.Some? then
        s.(at := if remote.Some? then Contents(cleaning, snap, false) else Applied(cleaning, snap))
      else if remote.None? then s.(at := Applied(cleaning, snap))
      else if remote.value !in s.lbs then s.(at := Gone(cleaning, snap))
      else if snap.spec.preserve then
        s.(lbs := s.lbs[remote.value := Released(s.lbs[remote.value])], at := Applied(cleaning, snap))
      else s.(lbs := s.lbs - {remote.value}, at := Applied(cleaning, snap))
    else if remote.None? then
      if snap.ingress then Restart(s)
      else s.(lbs := s.lbs[s.nextId := Balancer(Absent, !snap.spec.customName, false, false)],
              nextId := s.nextId + 1,
              at := Tag(cleaning, snap, s.nextId))
    else if snap.spec.reuse.Some? then
      // a load balancer with the lookup tag may not be reused
      if remote.value in s.lbs && !s.lbs[remote.value].tag.Absent? then Restart(s)
      else s.(at := AddTag(cleaning, snap, remote.value))
    else if remote.value !in s.lbs then Restart(s)
    else
      s.(lbs := s.lbs[remote.value := s.lbs[remote.value].(released := false)],
         at := AddTag(cleaning, snap, remote.value))
  }

  /** All tags of a new load balancer, the additional ones last. */
  ghost function StepTag(s: State): State
    requires s.at.Tag?
  {
    var Tag(cleaning, snap, id) := s.at;
    if id !in s.lbs then Restart(s)
    else
      s.(lbs := s.lbs[id := s.lbs[id].(tag := if snap.spec.claimsTag then Other else Right)],
         at := FindAgain(cleaning, snap, id))
  }

  ghost function StepFindAgain(s: State): State
    requires s.at.FindAgain?
  {
    var FindAgain(cleaning, snap, id) := s.at;
    s.(at := if id in s.lbs then Contents(cleaning, snap, false) else Gone(cleaning, snap))
  }

  ghost predicate Exists(s: State, id: nat) { id in s.lbs || id in s.theirs }

  /** The lookup tag is added where there is none and there is room. */
  ghost predicate TagIsDue(s: State)
    requires s.at.AddTag?
  {
    s.at.id in s.lbs && s.at.snap.spec.reuse.None? && s.lbs[s.at.id].tag.Absent? && !s.lbs[s.at.id].crowded
  }

  ghost function StepAddTag(s: State, success: bool): State
    requires s.at.AddTag?
  {
    var AddTag(cleaning, snap, id) := s.at;
    if TagIsDue(s) && success then
      s.(lbs := s.lbs[id := s.lbs[id].(tag := Right)], at := Rename(cleaning, snap, id, false))
    else s.(at := Rename(cleaning, snap, id, !success || !Exists(s, id)))
  }

  /** A name that is asked for is given, whatever became of the tag. The other attributes are
      updated here too, and fail alike. */
  ghost function StepRename(s: State, success: bool): State
    requires s.at.Rename?
  {
    var Rename(cleaning, snap, id, failed) := s.at;
    if id in s.lbs && snap.spec.customName && success then
      s.(lbs := s.lbs[id := s.lbs[id].(defaultNamed := false)], at := ExtraTags(cleaning, snap, id, failed))
    else s.(at := ExtraTags(cleaning, snap, id, failed || !success))
  }

  /** The additional tags, which may overwrite the lookup tag. */
  ghost function StepExtraTags(s: State, success: bool): State
    requires s.at.ExtraTags?
  {
    var ExtraTags(cleaning, snap, id, failed) := s.at;
    if id in s.lbs && snap.spec.claimsTag && success then
      s.(lbs := s.lbs[id := s.lbs[id].(tag := Other)], at := Contents(cleaning, snap, failed))
    else s.(at := Contents(cleaning, snap, failed || !success))
  }

  /** Groups and listeners; a failure noted before ends the run after them. */
  ghost function StepContents(s: State): State
    requires s.at.Contents?
  {
    s.(at := if s.at.failed then Idle else Applied(s.at.cleaning, s.at.snap))
  }

  ghost function StepAddLabels(s: State): State
    requires s.at.AddLabels?
  {
    if s.service.None? then Restart(s)
    else s.(service := Some(s.service.value.(hash := Some(ContentOf(s.at.snap)))), at := SetStatus)
  }

  ghost function StepSetStatus(s: State): State {
    if s.service.None? then Restart(s)
    else s.(service := Some(s.service.value.(ingress := true)), at := Idle)
  }

  ghost function StepDropLabels(s: State): State
    requires s.at.DropLabels?
  {
    if s.at.snap.hash.None? then s.(at := DropStatus(s.at.snap))
    else if s.service.None? then Restart(s)
    else s.(service := Some(s.service.value.(hash := None)), at := DropStatus(s.at.snap))
  }

  ghost function StepDropStatus(s: State): State
    requires s.at.DropStatus?
  {
    if s.service.None? || !s.at.snap.ingress then s.(at := DropFinalizer)
    else s.(service := Some(s.service.value.(ingress := false)), at := DropFinalizer)
  }

  /** A service being deleted disappears with its finalizer. */
  ghost function StepDropFinalizer(s: State): State {
    if s.service.None? then Restart(s)
    else if s.service.value.deleting then s.(service := None, at := Idle)
    else s.(service := Some(s.service.value.(finalizer := false)), at := Idle)
  }

  ghost function Advance(s: State): State {
    match s.at
    case Idle => Begin(s)
    case AddFinalizer => StepAddFinalizer(s)
    case Find(_, _) => StepFind(s)
    case Attribute(_, _, _) => StepAttribute(s)
    case Tag(_, _, _) => StepTag(s)
    case FindAgain(_, _, _) => StepFindAgain(s)
    case AddTag(_, _, _) => StepAddTag(s, true)
    case Rename(_, _, _, _) => StepRename(s, true)
    case ExtraTags(_, _, _, _) => StepExtraTags(s, true)
    case Contents(_, _, _) => StepContents(s)
    case AddLabels(_) => StepAddLabels(s)
    case SetStatus => StepSetStatus(s)
    case DropLabels(_) => StepDropLabels(s)
    case DropStatus(_) => StepDropStatus(s)
    case DropFinalizer => StepDropFinalizer(s)
  }

  /** Failures that do not end the run at once: those of an update are noted, that of clearing
      the status is not. */
  ghost function PassOver(s: State): State {
    match s.at
    case AddTag(_, _, _) => StepAddTag(s, false)
    case Rename(_, _, _, _) => StepRename(s, false)
    case ExtraTags(_, _, _, _) => StepExtraTags(s, false)
    case DropStatus(_) => s.(at := DropFinalizer)
    case _ => s
  }

  ghost function Next(s: State, a: Action): State {
    match a
    case Step => Advance(s)
    case Swallow => PassOver(s)
    case Stop => Restart(s)
    case Edit(spec) =>
      if s.service.None? then s else s.(service := Some(s.service.value.(spec := spec)))
    case Delete =>
      if s.service.None? then s
      else if s.service.value.finalizer then s.(service := Some(s.service.value.(deleting := true)))
      else s.(service := None)
    case Remove(id) => s.(lbs := s.lbs - {id}, theirs := s.theirs - {id})
    case Crowd(id, crowded) =>
      if id in s.lbs then s.(lbs := s.lbs[id := s.lbs[id].(crowded := crowded)]) else s
  }

  ghost function Exec(s: State, actions: seq<Action>): State
    decreases |actions|
  {
    if actions == [] then s else Exec(Next(s, actions[0]), actions[1..])
  }

  // ---- safety ----------------------------------------------------------------------------

  ghost predicate CanBeFound(lb: Balancer) { lb.tag.Right? || lb.defaultNamed }

  ghost function Findable(lbs: map<nat, Balancer>): set<nat> { set id | id in lbs && CanBeFound(lbs[id]) }

  /** Created and not let go of. */
  ghost function Held(lbs: map<nat, Balancer>): set<nat> { set id | id in lbs && !lbs[id].released }

  ghost predicate AtMostOne(ids: set<nat>) { forall a, b :: a in ids && b in ids ==> a == b }

  ghost predicate HasFinalizer(s: State) { s.service.Some? && s.service.value.finalizer }

  /** A held load balancer exists only while the service carries the finalizer, and there
      are never two. */
  ghost predicate Safe(s: State) {
    && (Held(s.lbs) != {} ==> HasFinalizer(s))
    && AtMostOne(Held(s.lbs))
  }

  ghost predicate OnDuty(svc: Service) { !svc.deleting && NeedClb(svc.spec) }

  /** On duty for another controller while this one's finalizer is still there. */
  ghost predicate HandedOver(svc: Service) {
    svc.spec.isLoadBalancer && svc.spec.foreignClass && !svc.deleting && svc.finalizer
  }

  /** An update by this spec leaves the load balancer findable: an overwritten tag needs the
      default name, another name needs the tag. */
  ghost predicate NameSafe(lb: Balancer, spec: Spec) {
    && !(spec.customName && spec.claimsTag)
    && (spec.claimsTag ==> lb.defaultNamed)
    && (spec.customName ==> lb.tag.Right? || (lb.tag.Absent? && !lb.crowded))
  }

  /** Whatever this spec finds, or creates, stays findable. */
  ghost predicate NamesFit(spec: Spec, ingress: bool, lbs: map<nat, Balancer>) {
    && (Findable(lbs) == {} && !ingress ==> !(spec.customName && spec.claimsTag))
    && forall id :: id in Findable(lbs) ==> NameSafe(lbs[id], spec)
  }

  /** Whether a service may be as it is while no reconcile runs: naming a load balancer to
      reuse must not orphan a held one; handing the service to another controller must find
      neither a load balancer to adopt nor leave to create one; and an update that is due must
      leave the load balancer findable. */
  ghost predicate Harmless(svc: Service, lbs: map<nat, Balancer>) {
    && (svc.spec.reuse.Some? ==> Held(lbs) == {})
    && (HandedOver(svc) && svc.spec.reuse.None? ==> svc.ingress && Findable(lbs) == {})
    && (OnDuty(svc) && svc.spec.reuse.None? && HashChanged(svc) ==> NamesFit(svc.spec, svc.ingress, lbs))
  }

  /** Off duty by its type, and with nothing named to reuse. */
  ghost predicate Retired(svc: Service) { !svc.deleting && !svc.spec.isLoadBalancer && svc.spec.reuse.None? }

  /** Its deletion leaves nothing to be found, and a published address bars creation: a label
      written now hides nothing later. */
  ghost predicate LeavesNothing(svc: Service, lbs: map<nat, Balancer>) {
    svc.ingress && (svc.spec.preserve ==> Named(lbs) == {})
  }

  /** Whether a service may be as it is when the finalizer step reads it: it then gets the
      finalizer and goes through the procedure of a service on duty, whatever its type. */
  ghost predicate HarmlessAtFinalizer(svc: Service, lbs: map<nat, Balancer>) {
    Harmless(svc.(finalizer := true), lbs) && (Retired(svc) ==> LeavesNothing(svc, lbs))
  }

  ghost predicate Plain(spec: Spec) { !spec.customName && !spec.claimsTag }

  ghost predicate HasSnapshot(at: Point) {
    at.Find? || at.Attribute? || at.Tag? || at.FindAgain? || at.AddTag? || at.Rename? || at.ExtraTags? || at.Contents?
    || at.AddLabels? || at.DropLabels? || at.DropStatus?
  }

  /** A new load balancer of another name than the default one must get its tag first. */
  ghost predicate MayStop(s: State) { s.at.Tag? && s.at.id in s.lbs ==> !s.at.snap.spec.customName }

  /** The points at which a failure is gone on from. */
  ghost predicate GoesOn(at: Point) { at.AddTag? || at.Rename? || at.ExtraTags? || at.DropStatus? }

  /** One that is about to get another name must get its tag. */
  ghost predicate MayPassOver(s: State) { s.at.AddTag? && TagIsDue(s) ==> !s.at.snap.spec.customName }

  /** An upper bound of the steps left in a run with a snapshot. */
  ghost function Rank(at: Point): nat {
    match at
    case Find(_, _) => 10
    case Attribute(_, _, _) => 9
    case Tag(_, _, _) => 8
    case FindAgain(_, _, _) => 7
    case AddTag(_, _, _) => 7
    case Rename(_, _, _, _) => 6
    case ExtraTags(_, _, _, _) => 5
    case Contents(_, _, _) => 4
    case AddLabels(_) => 3
    case DropLabels(_) => 3
    case DropStatus(_) => 2
    case _ => 0
  }

  /** A search for the load balancer named to reuse, just after that was removed. */
  ghost function Vanished(s: State): State
    requires s.at.Find? && s.at.snap.spec.reuse.Some?
  {
    var Find(cleaning, snap) := s.at;
    var id := snap.spec.reuse.value;
    s.(lbs := s.lbs - {id}, theirs := s.theirs - {id}, at := Gone(cleaning, snap))
  }

  lemma RankFalls(s: State)
    requires HasSnapshot(s.at)
    ensures Rank(Advance(s).at) < Rank(s.at)
    ensures GoesOn(s.at) ==> Rank(PassOver(s).at) < Rank(s.at)
    ensures s.at.Find? && s.at.snap.spec.reuse.Some? ==> Rank(Vanished(s).at) < Rank(s.at)
  {
  }

  ghost predicate HarmlessNow(s: State) {
    s.service.Some? ==>
      if s.at.AddFinalizer? then HarmlessAtFinalizer(s.service.value, s.lbs) else Harmless(s.service.value, s.lbs)
  }

  /** Wherever the present run may stop, it leaves the service harmless: after each of its steps,
      after the failures it goes on from, and when the load balancer to reuse is gone. It looks no
      further than the end of this run and at no other action of the user. */
  ghost predicate StaysHarmless(s: State)
    decreases Rank(s.at)
  {
    && (MayStop(s) ==> HarmlessNow(s))
    && (HasSnapshot(s.at) ==>
          (RankFalls(s);
           && StaysHarmless(Advance(s))
           && (GoesOn(s.at) && MayPassOver(s) ==> StaysHarmless(PassOver(s)))
           && (s.at.Find? && s.at.snap.spec.reuse.Some? ==> StaysHarmless(Vanished(s)))))
  }

  /** One step of a proof that a run stays harmless. */
  lemma StaysHarmlessBy(s: State)
    requires MayStop(s) ==> HarmlessNow(s)
    requires HasSnapshot(s.at) ==> StaysHarmless(Advance(s))
    requires GoesOn(s.at) && MayPassOver(s) ==> StaysHarmless(PassOver(s))
    requires s.at.Find? && s.at.snap.spec.reuse.Some? ==> StaysHarmless(Vanished(s))
    ensures StaysHarmless(s)
  {
  }

  lemma StaysHarmlessAfter(s: State)
    requires StaysHarmless(s)
    ensures MayStop(s) ==> HarmlessNow(s)
    ensures HasSnapshot(s.at) ==> StaysHarmless(Advance(s))
    ensures GoesOn(s.at) && MayPassOver(s) ==> StaysHarmless(PassOver(s))
    ensures s.at.Find? && s.at.snap.spec.reuse.Some? ==> StaysHarmless(Vanished(s))
  {
  }

  /** The load balancer that the present run updates or creates stays findable. */
  ghost predicate UpdateFits(s: State) { HasSnapshot(s.at) ==> Harmless(s.at.snap, s.lbs) }

  /** The actions under which safety is claimed. */
  ghost predicate Allowed(s: State, a: Action) {
    match a
    case Stop => MayStop(s)
    case Swallow => MayPassOver(s)
    case Edit(_) => StaysHarmless(Next(s, a))
    case Crowd(_, _) => StaysHarmless(Next(s, a)) && UpdateFits(Next(s, a))
    case _ => true
  }

  ghost predicate AllAllowed(s: State, actions: seq<Action>)
    decreases |actions|
  {
    actions == [] || (Allowed(s, actions[0]) && AllAllowed(Next(s, actions[0]), actions[1..]))
  }

  /** A service just created, as harmless as an edit must be: nothing of the controller's is
      on it. */
  ghost predicate Initial(s: State) {
    && s.at.Idle? && s.lbs == map[]
    && s.service.Some? && !s.service.value.finalizer && s.service.value.hash.None? && Harmless(s.service.value, s.lbs)
  }

  // ---- sets of load balancers ---------------------------------------------------------

  lemma SetsAfterRemoval(lbs: map<nat, Balancer>, id: nat)
    ensures Findable(lbs - {id}) == Findable(lbs) - {id} && Held(lbs - {id}) == Held(lbs) - {id}
            && Named(lbs - {id}) == Named(lbs) - {id}
  {
  }

  lemma SetsAfterLoss(lbs: map<nat, Balancer>, gone: set<nat>)
    ensures Findable(lbs - gone) == Findable(lbs) - gone && Held(lbs - gone) == Held(lbs) - gone
            && Named(lbs - gone) == Named(lbs) - gone
  {
  }

  lemma SetsAfterUpdate(lbs: map<nat, Balancer>, id: nat, lb: Balancer)
    ensures Findable(lbs[id := lb]) == Findable(lbs) - {id} + (if CanBeFound(lb) then {id} else {})
    ensures Held(lbs[id := lb]) == Held(lbs) - {id} + (if lb.released then {} else {id})
    ensures Named(lbs[id := lb]) == Named(lbs) - {id} + (if lb.defaultNamed then {id} else {})
  {
  }

  /** An update of a load balancer that can be found no better than before. */
  lemma SetsAfterDimming(lbs: map<nat, Balancer>, id: nat, lb: Balancer)
    requires id in lbs && lb.released == lbs[id].released
    requires (CanBeFound(lb) ==> CanBeFound(lbs[id])) && (lb.defaultNamed ==> lbs[id].defaultNamed)
    ensures var lbs' := lbs[id := lb];
            && Held(lbs') == Held(lbs) && Named(lbs') <= Named(lbs)
            && Findable(lbs') == (if CanBeFound(lb) then Findable(lbs) else Findable(lbs) - {id})
  {
  }

  lemma SetsAfterCrowding(lbs: map<nat, Balancer>, id: nat, crowded: bool)
    requires id in lbs
    ensures var lbs' := lbs[id := lbs[id].(crowded := crowded)];
            Findable(lbs') == Findable(lbs) && Held(lbs') == Held(lbs) && Named(lbs') == Named(lbs)
  {
  }

  lemma PlainFits(spec: Spec, ingress: bool, lbs: map<nat, Balancer>)
    requires Plain(spec)
    ensures NamesFit(spec, ingress, lbs)
  {
  }

  // ---- runs nobody disturbs ------------------------------------------------------------

  /** The controller left to itself for n steps. */
  ghost function Run(s: State, n: nat): State
    decreases n
  {
    if n == 0 then s else Run(Advance(s), n - 1)
  }

  lemma {:induction false} RunAdds(s: State, m: nat, n: nat)
    ensures Run(Run(s, m), n) == Run(s, m + n)
    decreases m
  {
    if m > 0 { RunAdds(Advance(s), m - 1, n); }
  }

  lemma RunThree(s: State, a: State, b: State, c: State)
    requires a == Advance(s) && b == Advance(a) && c == Advance(b)
    ensures Run(s, 3) == c
  {
    assert Run(s, 3) == Run(a, 2) == Run(b, 1) == Run(c, 0);
  }

  lemma LookSucceeds(s: State, snap: Service)
    requires AtMostOne(Findable(s.lbs)) && snap.spec.reuse.None?
    ensures var r := Look(snap, s.lbs, s.theirs);
            if Findable(s.lbs) == {} then r.NotFound? else r.Found? && Findable(s.lbs) == {r.id}
  {
    assert Findable(s.lbs) == Tagged(s.lbs) + Named(s.lbs);
  }

  /** What an update without failures makes of a load balancer. */
  ghost function UpdatedBy(lb: Balancer, spec: Spec): Balancer {
    lb.(tag := if spec.claimsTag then Other else if lb.tag.Absent? && !lb.crowded then Right else lb.tag,
        defaultNamed := lb.defaultNamed && !spec.customName)
  }

  /** What a creation without failures makes. */
  ghost function NewBy(spec: Spec): Balancer {
    Balancer(if spec.claimsTag then Other else Right, !spec.customName, false, false)
  }

  /** It leaves the load balancer findable exactly when the names are safe. */
  lemma NameSafeIsExact(lb: Balancer, spec: Spec)
    requires CanBeFound(lb)
    ensures CanBeFound(UpdatedBy(lb, spec)) <==> NameSafe(lb, spec)
  {
  }

  lemma UpdateRuns(s: State)
    requires s.at.AddTag? && s.at.id in s.lbs && s.at.snap.spec.reuse.None?
    ensures var AddTag(cleaning, snap, id) := s.at;
            Run(s, 3) == s.(lbs := s.lbs[id := UpdatedBy(s.lbs[id], snap.spec)], at := Contents(cleaning, snap, false))
  {
    var id := s.at.id;
    AddTagRuns(s);
    var a := Advance(s);
    RenameRuns(a);
    var b := Advance(a);
    ExtraTagsRuns(b);
    var c := Advance(b);
    RunThree(s, a, b, c);
    assert c.lbs[id] == UpdatedBy(s.lbs[id], s.at.snap.spec);
    assert s.lbs[id := a.lbs[id]][id := b.lbs[id]][id := c.lbs[id]] == s.lbs[id := c.lbs[id]];
  }

  lemma AddTagRuns(s: State)
    requires s.at.AddTag? && s.at.id in s.lbs && s.at.snap.spec.reuse.None?
    ensures var AddTag(cleaning, snap, id) := s.at;
            var lb := s.lbs[id].(tag := if s.lbs[id].tag.Absent? && !s.lbs[id].crowded then Right else s.lbs[id].tag);
            Advance(s) == s.(lbs := s.lbs[id := lb], at := Rename(cleaning, snap, id, false))
  {
    assert s.lbs[s.at.id := s.lbs[s.at.id]] == s.lbs;
  }

  lemma RenameRuns(s: State)
    requires s.at.Rename? && s.at.id in s.lbs && !s.at.failed
    ensures var Rename(cleaning, snap, id, _) := s.at;
            var lb := s.lbs[id].(defaultNamed := s.lbs[id].defaultNamed && !snap.spec.customName);
            Advance(s) == s.(lbs := s.lbs[id := lb], at := ExtraTags(cleaning, snap, id, false))
  {
    assert s.lbs[s.at.id := s.lbs[s.at.id]] == s.lbs;
  }

  lemma ExtraTagsRuns(s: State)
    requires s.at.ExtraTags? && s.at.id in s.lbs && !s.at.failed
    ensures var ExtraTags(cleaning, snap, id, _) := s.at;
            var lb := s.lbs[id].(tag := if snap.spec.claimsTag then Other else s.lbs[id].tag);
            Advance(s) == s.(lbs := s.lbs[id := lb], at := Contents(cleaning, snap, false))
  {
    assert s.lbs[s.at.id := s.lbs[s.at.id]] == s.lbs;
  }

  lemma CreationRuns(s: State)
    requires s.at.Tag? && s.at.id in s.lbs
    ensures var Tag(cleaning, snap, id) := s.at;
            var lb := s.lbs[id].(tag := if snap.spec.claimsTag then Other else Right);
            Run(s, 2) == s.(lbs := s.lbs[id := lb], at := Contents(cleaning, snap, false))
  {
    var a := Advance(s);
    assert Run(s, 2) == Run(a, 1) == Run(Advance(a), 0);
  }

  /** A service as a finished cleanup leaves it: one being deleted is gone, another one has no
      finalizer, no label and no published address. */
  ghost predicate LetGo(before: Service, after: Option<Service>) {
    if before.deleting then after.None?
    else && after.Some? && after.value.spec == before.spec && !after.value.deleting
         && !after.value.finalizer && after.value.hash.None? && !after.value.ingress
  }

  /** The end of every cleaning run. */
  lemma CleaningEnds(s: State)
    requires s.at.DropLabels? && HasFinalizer(s)
    ensures var t := Run(s, 3);
            && t.at.Idle? && !HasFinalizer(t) && t.lbs == s.lbs && t.theirs == s.theirs && t.nextId == s.nextId
            && (s.service.value.hash == s.at.snap.hash && s.service.value.ingress == s.at.snap.ingress ==>
                  LetGo(s.service.value, t.service))
  {
    var a := Advance(s);
    var b := Advance(a);
    assert Run(s, 3) == Run(a, 2) == Run(b, 1) == Run(Advance(b), 0);
  }
}
