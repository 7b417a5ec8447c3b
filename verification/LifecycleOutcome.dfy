/** What a run that nobody disturbs achieves. */
module LifecycleOutcome {
  import opened Common
  import opened Lifecycle
  import opened LifecycleSafety

  /** A load balancer as a cleanup leaves it that may not delete it. */
  ghost predicate Kept(before: Balancer, after: Balancer) {
    && after.released && after.tag != Right && (before.tag != Right ==> after.tag == before.tag)
    && after.defaultNamed == before.defaultNamed && after.crowded == before.crowded
  }

  /** What a cleanup makes of the load balancers: what is found is deleted, or kept on demand; a
      service whose label says that this was done changes nothing. */
  ghost predicate Cleared(svc: Service, before: map<nat, Balancer>, after: map<nat, Balancer>) {
    && (forall id :: id in before && (!HashChanged(svc) || id !in Findable(before)) ==>
          id in after && after[id] == before[id])
    && (forall id :: id in before && HashChanged(svc) && id in Findable(before) ==>
          if svc.spec.preserve then id in after && Kept(before[id], after[id]) else id !in after)
    && after.Keys <= before.Keys
  }

  /** A service off duty loses its finalizer, its label and its published address, and with them
      every load balancer it held. */
  lemma CleanupFinishes(s: State) returns (n: nat)
    requires Inv(s) && s.at.Idle? && HasFinalizer(s)
    requires NeedDelete(s.service.value) && s.service.value.spec.reuse.None?
    ensures n <= 7 && Run(s, n).at.Idle? && !HasFinalizer(Run(s, n)) && Held(Run(s, n).lbs) == {}
    ensures LetGo(s.service.value, Run(s, n).service) && Run(s, n).theirs == s.theirs
    ensures Cleared(s.service.value, s.lbs, Run(s, n).lbs)
  {
    var svc := s.service.value;
    LookSucceeds(s, svc);
    var a := Advance(s);
    var b := Advance(a);
    var c := Advance(b);
    RunThree(s, a, b, c);
    BeginKeeps(s);
    FindKeeps(a);
    AttributeKeeps(b);
    DeletionClears(b);
    if c.at.DropLabels? {
      CleaningEnds(c);
      RunAdds(s, 3, 3);
      n := 6;
    } else {
      var d := Advance(c);
      assert Run(c, 1) == Run(d, 0);
      CleaningEnds(d);
      RunAdds(s, 3, 1);
      RunAdds(s, 4, 3);
      n := 7;
    }
  }

  lemma DeletionClears(s: State)
    requires s.at.Attribute? && NeedDelete(s.at.snap) && s.at.snap.spec.reuse.None?
    requires s.at.remote.None? ==> Findable(s.lbs) == {}
    requires s.at.remote.Some? ==> Findable(s.lbs) == {s.at.remote.value}
    ensures Cleared(s.at.snap, s.lbs, Advance(s).lbs)
  {
  }

  lemma {:induction false} InvAfter(s: State, n: nat)
    requires Inv(s)
    ensures Inv(Run(s, n))
    decreases n
  {
    if n > 0 {
      StepKeeps(s);
      InvAfter(Advance(s), n - 1);
    }
  }

  /** A service without the finalizer disappears as soon as it is deleted, and leaves nothing. */
  lemma DeletedAtOnce(s: State)
    requires Inv(s) && s.service.Some? && !HasFinalizer(s)
    ensures Next(s, Delete).service.None? && Held(s.lbs) == {}
  {
  }

  /** The state of a service on duty whose load balancer is in place. */
  ghost predicate Settled(s: State) {
    && s.at.Idle? && s.service.Some?
    && var svc := s.service.value;
    && OnDuty(svc) && svc.spec.reuse.None? && svc.finalizer && svc.ingress && !HashChanged(svc)
    && exists id :: Findable(s.lbs) == {id}
  }

  /** On duty and with something to do that is not refused. */
  ghost predicate Pending(s: State) {
    && Inv(s) && s.at.Idle? && s.service.Some? && HashChanged(s.service.value)
    && OnDuty(s.service.value) && s.service.value.spec.reuse.None?
    && (Findable(s.lbs) != {} || !s.service.value.ingress)
  }

  /** The load balancer as a run without failures leaves it: what was found, updated, or a new
      one. */
  ghost function Outcome(s: State, id: nat): Balancer
    requires s.service.Some?
  {
    var spec := s.service.value.spec;
    if id in s.lbs then UpdatedBy(s.lbs[id].(released := false), spec)
    else NewBy(spec)
  }

  /** The load balancer is in place in t, and t is about its contents. */
  ghost predicate InPlace(s: State, t: State, id: nat)
    requires s.service.Some?
  {
    && var snap := s.service.value.(finalizer := true);
    && t.service == Some(snap) && t.at == Contents(false, snap, false)
    && (if Findable(s.lbs) == {} then id == s.nextId else Findable(s.lbs) == {id})
    && t.lbs == s.lbs[id := Outcome(s, id)] && Held(t.lbs) == Findable(t.lbs) == {id}
  }

  lemma AdoptionInPlace(s: State) returns (id: nat)
    requires Pending(s) && Findable(s.lbs) != {}
    ensures InPlace(s, Run(s, 7), id)
  {
    var a := Advance(s);
    var b := Advance(a);
    LookSucceeds(b, b.at.snap);
    var c := Advance(b);
    var d := Advance(c);
    id := c.at.remote.value;
    assert Run(s, 4) == Run(a, 3) == Run(b, 2) == Run(c, 1) == Run(d, 0);
    UpdateRuns(d);
    RunAdds(s, 4, 3);
    NameSafeIsExact(s.lbs[id], s.service.value.spec);
    SetsAfterUpdate(s.lbs, id, Outcome(s, id));
    assert Run(s, 7).lbs == s.lbs[id := Outcome(s, id)];
  }

  lemma CreationInPlace(s: State) returns (id: nat)
    requires Pending(s) && Findable(s.lbs) == {}
    ensures InPlace(s, Run(s, 6), id)
  {
    var a := Advance(s);
    var b := Advance(a);
    LookSucceeds(b, b.at.snap);
    var c := Advance(b);
    var d := Advance(c);
    id := s.nextId;
    assert Run(s, 4) == Run(a, 3) == Run(b, 2) == Run(c, 1) == Run(d, 0);
    CreationRuns(d);
    RunAdds(s, 4, 2);
    SetsAfterUpdate(s.lbs, id, Outcome(s, id));
    assert Run(s, 6).lbs == s.lbs[id := Outcome(s, id)];
  }

  /** A service on duty, after an edit or before its first run, ends with one load balancer,
      held, findable, and with the name and tags asked for, unless one was published before and
      is gone. */
  lemma ReconcileSettles(s: State) returns (n: nat, id: nat)
    requires Pending(s)
    ensures n <= 10 && Settled(Run(s, n)) && Run(s, n).service.value.spec == s.service.value.spec
    ensures Held(Run(s, n).lbs) == Findable(Run(s, n).lbs) == {id}
    ensures Run(s, n).lbs == s.lbs[id := Outcome(s, id)]
    ensures if Findable(s.lbs) == {} then id == s.nextId else Findable(s.lbs) == {id}
  {
    var k: nat := if Findable(s.lbs) != {} then 7 else 6;
    if Findable(s.lbs) != {} { id := AdoptionInPlace(s); } else { id := CreationInPlace(s); }
    n := k + 3;
    SettledOnceInPlace(s, k, id);
  }

  /** A service that was cleaned up and comes back on duty gets a load balancer again. */
  lemma ReturnSettles(s: State, spec: Spec) returns (n: nat, m: nat, id: nat)
    requires Inv(s) && s.at.Idle? && HasFinalizer(s) && !s.service.value.deleting
    requires !s.service.value.spec.isLoadBalancer && s.service.value.spec.reuse.None?
    requires NeedClb(spec) && spec.reuse.None? && Plain(spec)
    ensures var t := Next(Run(s, n), Edit(spec));
            && Allowed(Run(s, n), Edit(spec)) && Settled(Run(t, m)) && Run(t, m).service.value.spec == spec
            && Held(Run(t, m).lbs) == Findable(Run(t, m).lbs) == {id}
  {
    n := CleanupFinishes(s);
    InvAfter(s, n);
    var u := Run(s, n);
    var t := Next(u, Edit(spec));
    PlainFits(spec, t.service.value.ingress, t.lbs);
    InvKept(u, Edit(spec));
    m, id := ReconcileSettles(t);
  }

  lemma SettledOnceInPlace(s: State, k: nat, id: nat)
    requires Pending(s) && InPlace(s, Run(s, k), id)
    ensures Settled(Run(s, k + 3)) && Run(s, k + 3).lbs == Run(s, k).lbs
    ensures Run(s, k + 3).service.value.spec == s.service.value.spec
  {
    ReconcileEnds(Run(s, k));
    RunAdds(s, k, 3);
  }

  lemma ReconcileEnds(s: State)
    requires s.at.Contents? && !s.at.cleaning && !s.at.failed && s.service.Some?
    ensures Run(s, 3) == s.(service := Some(s.service.value.(hash := Some(ContentOf(s.at.snap)), ingress := true)),
                            at := Idle)
  {
    var a := Advance(s);
    var b := Advance(a);
    RunThree(s, a, b, Advance(b));
  }

  /** A run on a settled service changes nothing. */
  lemma SettledStays(s: State)
    requires Settled(s)
    ensures Run(s, 7) == s
  {
    var a := Advance(s);
    var b := Advance(a);
    LookSucceeds(b, b.at.snap);
    var c := Advance(b);
    var d := Advance(c);
    ReconcileEnds(d);
    assert Run(s, 7) == Run(a, 6) == Run(b, 5) == Run(c, 4) == Run(d, 3);
  }

  /** A published load balancer that is gone is never made again by a run. */
  lemma LostIsNotRecreated(s: State)
    requires Inv(s) && s.at.Idle? && HasFinalizer(s) && s.service.value.ingress && Findable(s.lbs) == {}
    requires OnDuty(s.service.value) && s.service.value.spec.reuse.None?
    ensures Run(s, 4) == s
  {
    var a := Advance(s);
    var b := Advance(a);
    LookSucceeds(b, b.at.snap);
    var c := Advance(b);
    assert Run(s, 4) == Run(a, 3) == Run(b, 2) == Run(c, 1) == Run(Advance(c), 0);
  }

  // ---- reused load balancers -------------------------------------------------------------

  /** A service on duty that names a load balancer to reuse, and has something to do. */
  ghost predicate Reusing(s: State, id: nat) {
    && s.at.Idle? && s.service.Some? && OnDuty(s.service.value) && HashChanged(s.service.value)
    && s.service.value.spec.reuse == Some(id)
  }

  /** It is taken up when it is the user's, or one without the lookup tag, and then no other load
      balancer changes and none is made. */
  lemma ReuseSettles(s: State, id: nat)
    requires Reusing(s, id)
    requires if id in s.lbs then s.lbs[id].tag.Absent? else id in s.theirs
    ensures var t, svc := Run(s, 10), s.service.value;
            && t.at.Idle? && t.theirs == s.theirs && t.lbs.Keys == s.lbs.Keys
            && t.service == Some(svc.(finalizer := true, hash := Some(ContentOf(svc)), ingress := true))
            && forall x :: x in s.lbs && x != id ==> t.lbs[x] == s.lbs[x]
  {
    var a := Advance(s);
    var b := Advance(a);
    var c := Advance(b);
    var d := Advance(c);
    assert Run(s, 4) == Run(a, 3) == Run(b, 2) == Run(c, 1) == Run(d, 0);
    ReuseUpdates(d);
    RunAdds(s, 4, 3);
    ReconcileEnds(Run(d, 3));
    RunAdds(s, 7, 3);
  }

  lemma ReuseUpdates(s: State)
    requires s.at.AddTag? && s.at.snap.spec.reuse == Some(s.at.id) && Exists(s, s.at.id)
    ensures var t := Run(s, 3);
            && t == s.(lbs := t.lbs, at := Contents(s.at.cleaning, s.at.snap, false)) && t.lbs.Keys == s.lbs.Keys
            && forall x :: x in s.lbs && x != s.at.id ==> t.lbs[x] == s.lbs[x]
  {
    var a := Advance(s);
    var b := Advance(a);
    RunThree(s, a, b, Advance(b));
  }

  /** One with the lookup tag, or one that is not there, is refused: the run gives the finalizer
      and does nothing else. */
  lemma ReuseRefused(s: State, id: nat)
    requires Reusing(s, id)
    requires if id in s.lbs then !s.lbs[id].tag.Absent? else id !in s.theirs
    ensures exists n :: n <= 4 && Run(s, n) == s.(service := Some(s.service.value.(finalizer := true)))
  {
    var a := Advance(s);
    var b := Advance(a);
    var c := Advance(b);
    assert Run(s, 3) == Run(a, 2) == Run(b, 1) == Run(c, 0);
    if id in s.lbs { assert Run(s, 4) == Run(a, 3) == Run(b, 2) == Run(c, 1) == Run(Advance(c), 0); }
  }

  /** A service that is deleted, or changes its type, between the start of a run and its
      finalizer step gives its load balancer back in that run. */
  lemma DeletedAtFinalizer(s: State, id: nat)
    requires s.at.AddFinalizer? && HasFinalizer(s) && NeedDelete(s.service.value) && HashChanged(s.service.value)
    requires s.service.value.spec.reuse.None? && Findable(s.lbs) == {id}
    ensures Cleared(s.service.value, s.lbs, Run(s, 3).lbs)
  {
    var a := Advance(s);
    LookSucceeds(a, a.at.snap);
    var b := Advance(a);
    DeletionClears(b);
    RunThree(s, a, b, Advance(b));
  }

  /** A service that goes off duty lets the load balancer it reused go as it is, and every other. */
  lemma ReuseLetsGo(s: State, id: nat) returns (n: nat)
    requires s.at.Idle? && HasFinalizer(s) && NeedDelete(s.service.value) && s.service.value.spec.reuse == Some(id)
    ensures n <= 7 && Run(s, n).at.Idle? && LetGo(s.service.value, Run(s, n).service)
    ensures Run(s, n).lbs == s.lbs && Run(s, n).theirs == s.theirs
  {
    var a := Advance(s);
    var b := Advance(a);
    if Exists(s, id) {
      var c := Advance(b);
      var d := Advance(c);
      assert Run(s, 4) == Run(a, 3) == Run(b, 2) == Run(c, 1) == Run(d, 0);
      CleaningEnds(d);
      RunAdds(s, 4, 3);
      n := 7;
    } else {
      assert Run(s, 2) == Run(a, 1) == Run(b, 0);
      CleaningEnds(b);
      RunAdds(s, 2, 3);
      n := 5;
    }
  }
}
