/** The conditions on the actions cannot be dropped: without them some run forgets a load
    balancer. */
module LifecycleExactness {
  import opened Common
  import opened Lifecycle
  import opened LifecycleSafety

  ghost function Steps(n: nat): seq<Action> { seq(n, _ => Step) }

  lemma {:induction false} RunIsExec(s: State, n: nat)
    ensures AllAllowed(s, Steps(n)) && Exec(s, Steps(n)) == Run(s, n)
    decreases n
  {
    if n > 0 {
      assert Steps(n)[0] == Step && Steps(n)[1..] == Steps(n - 1);
      RunIsExec(Advance(s), n - 1);
    }
  }

  /** Some run of allowed actions from here ends unsafe. */
  ghost predicate Doomed(s: State) {
    exists rest :: AllAllowed(s, rest) && !Safe(Exec(s, rest))
  }

  lemma DoomedByRun(s: State, n: nat)
    requires !Safe(Run(s, n))
    ensures Doomed(s)
  {
    RunIsExec(s, n);
  }

  lemma DoomedEarlier(s: State, a: Action)
    requires Allowed(s, a) && Doomed(Next(s, a))
    ensures Doomed(s)
  {
    var rest :| AllAllowed(Next(s, a), rest) && !Safe(Exec(Next(s, a), rest));
    var all := [a] + rest;
    assert all[0] == a && all[1..] == rest;
    assert AllAllowed(s, all) && !Safe(Exec(s, all));
  }

  lemma {:induction false} DoomedBeforeRun(s: State, n: nat)
    requires Doomed(Run(s, n))
    ensures Doomed(s)
    decreases n
  {
    if n > 0 {
      DoomedBeforeRun(Advance(s), n - 1);
      DoomedEarlier(s, Step);
    }
  }

  lemma DoomedFromDropLabels(s: State, k: nat, t: State)
    requires t == Run(s, k) && t.at.DropLabels? && HasFinalizer(t) && Held(t.lbs) != {}
    ensures Doomed(s)
  {
    CleaningEnds(t);
    RunAdds(s, k, 3);
    DoomedByRun(s, k + 3);
  }

  /** Deleting a service that names a load balancer to reuse forgets the one held. */
  lemma ReuseOrphans(s: State)
    requires s.at.Idle? && HasFinalizer(s) && s.service.value.deleting && s.service.value.spec.reuse.Some?
             && Held(s.lbs) != {}
    ensures Doomed(s)
  {
    var a := Advance(s);
    var b := Advance(a);
    assert Run(s, 2) == Run(a, 1) == Run(b, 0);
    if b.at.DropLabels? {
      DoomedFromDropLabels(s, 2, b);
    } else {
      var c := Advance(b);
      var d := Advance(c);
      assert Run(s, 4) == Run(a, 3) == Run(b, 2) == Run(c, 1) == Run(d, 0);
      DoomedFromDropLabels(s, 4, d);
    }
  }

  /** A deleted service whose load balancer cannot be found forgets it. */
  lemma UnfindableOrphans(s: State)
    requires s.at.Idle? && HasFinalizer(s) && s.service.value.deleting && s.service.value.spec.reuse.None?
    requires Held(s.lbs) != {} && Findable(s.lbs) == {}
    ensures Doomed(s)
  {
    LookSucceeds(s, s.service.value);
    var a := Advance(s);
    var b := Advance(a);
    var c := Advance(b);
    assert Run(s, 3) == Run(a, 2) == Run(b, 1) == Run(c, 0);
    DoomedFromDropLabels(s, 3, c);
  }

  /** So does any service once its load balancer can no longer be found. */
  lemma LostOrphans(s: State)
    requires HasFinalizer(s) && Held(s.lbs) != {} && Findable(s.lbs) == {} && MayStop(s)
    ensures Doomed(s)
  {
    var t := Next(s, Stop);
    var u := Next(t, Delete);
    if s.service.value.spec.reuse.Some? { ReuseOrphans(u); } else { UnfindableOrphans(u); }
    DoomedEarlier(t, Delete);
    DoomedEarlier(s, Stop);
  }

  /** A service handed over to another controller adopts or creates a load balancer, then
      forgets it. */
  lemma HandOverOrphans(s: State)
    requires s.at.Idle? && s.service.Some? && HandedOver(s.service.value) && s.service.value.spec.reuse.None?
    requires HashChanged(s.service.value) && AtMostOne(Findable(s.lbs))
    requires Findable(s.lbs) != {} || !s.service.value.ingress
    ensures Doomed(s)
  {
    LookSucceeds(s, s.service.value);
    var a := Advance(s);
    var b := Advance(a);
    var c := Advance(b);
    assert Run(s, 3) == Run(a, 2) == Run(b, 1) == Run(c, 0);
    if b.at.remote.Some? {
      UpdateRuns(c);
      RunAdds(s, 3, 3);
      assert c.at.id in Held(Run(c, 3).lbs);
      ContentsOrphan(s, 6);
    } else {
      CreationRuns(c);
      RunAdds(s, 3, 2);
      assert c.at.id in Held(Run(c, 2).lbs);
      ContentsOrphan(s, 5);
    }
  }

  lemma ContentsOrphan(s: State, k: nat)
    requires var t := Run(s, k); t.at.Contents? && t.at.cleaning && !t.at.failed && HasFinalizer(t) && Held(t.lbs) != {}
    ensures Doomed(s)
  {
    var t := Run(s, k);
    assert Run(t, 1) == Run(Advance(t), 0);
    RunAdds(s, k, 1);
    DoomedFromDropLabels(s, k + 1, Advance(t));
  }

  /** An update that is due and leaves the load balancer without tag and name loses it, and so
      does a creation. */
  lemma NamesOrphan(s: State)
    requires s.at.Idle? && s.service.Some? && OnDuty(s.service.value) && s.service.value.spec.reuse.None?
             && HashChanged(s.service.value)
    requires AtMostOne(Findable(s.lbs)) && !NamesFit(s.service.value.spec, s.service.value.ingress, s.lbs)
    requires Held(s.lbs) <= Findable(s.lbs)
    ensures Doomed(s)
  {
    var spec := s.service.value.spec;
    var a := Advance(s);
    var b := Advance(a);
    LookSucceeds(b, b.at.snap);
    var c := Advance(b);
    var d := Advance(c);
    assert Run(s, 4) == Run(a, 3) == Run(b, 2) == Run(c, 1) == Run(d, 0);
    if Findable(s.lbs) != {} {
      var id := d.at.id;
      UpdateRuns(d);
      var e := Run(d, 3);
      NameSafeIsExact(d.lbs[id], spec);
      SetsAfterUpdate(s.lbs, id, e.lbs[id]);
      assert e.lbs == s.lbs[id := e.lbs[id]];
      assert id in Held(e.lbs);
      LostOrphans(e);
      RunAdds(s, 4, 3);
      DoomedBeforeRun(s, 7);
    } else {
      var id := d.at.id;
      CreationRuns(d);
      var e := Run(d, 2);
      SetsAfterUpdate(s.lbs, id, e.lbs[id]);
      assert e.lbs == s.lbs[id := e.lbs[id]];
      assert id in Held(e.lbs);
      LostOrphans(e);
      RunAdds(s, 4, 2);
      DoomedBeforeRun(s, 6);
    }
  }

  /** A service at rest that is not harmless is doomed. */
  lemma HarmIsDoom(s: State)
    requires CloudInv(s) && s.at.Idle? && s.service.Some? && LabelFits(s.service.value, s.lbs)
             && !Harmless(s.service.value, s.lbs)
    ensures Doomed(s)
  {
    var svc := s.service.value;
    if svc.spec.reuse.Some? {
      ReuseOrphans(Next(s, Delete));
      DoomedEarlier(s, Delete);
    } else if HandedOver(svc) {
      HandOverOrphans(s);
    } else {
      NamesOrphan(s);
    }
  }

  /** The label of a retired service hides a load balancer from its deletion. */
  lemma LabelHides(s: State, id: nat)
    requires s.at.Idle? && HasFinalizer(s) && Retired(s.service.value) && !HashChanged(s.service.value)
    requires Findable(s.lbs) == {id} && id in Held(s.lbs)
    ensures Doomed(s)
  {
    LookSucceeds(s, s.service.value);
    var a := Advance(s);
    var b := Advance(a);
    var c := Advance(b);
    RunThree(s, a, b, c);
    var d := Advance(c);
    RunAdds(s, 3, 1);
    assert Run(c, 1) == Run(d, 0);
    DoomedFromDropLabels(s, 4, d);
  }

  ghost function PlainSpec(): Spec { Spec(true, false, None, false, false, false, 0) }

  /** A plain service on duty takes up what it finds, or creates, before anything can fail. */
  lemma TakesUp(s: State) returns (id: nat)
    requires s.at.Idle? && HasFinalizer(s) && !s.service.value.deleting && s.service.value.spec == PlainSpec()
             && HashChanged(s.service.value)
    requires AtMostOne(Findable(s.lbs)) && (Findable(s.lbs) != {} || !s.service.value.ingress)
    ensures var t := Run(s, 4);
            t.service == s.service && Findable(t.lbs) == {id} && id in Held(t.lbs) && Allowed(t, Stop)
  {
    var a := Advance(s);
    var b := Advance(a);
    LookSucceeds(b, b.at.snap);
    var c := Advance(b);
    var d := Advance(c);
    id := d.at.id;
    SetsAfterUpdate(s.lbs, id, d.lbs[id]);
    assert Run(s, 4) == Run(a, 3) == Run(b, 2) == Run(c, 1) == Run(d, 0);
  }

  /** So a service must not stay labelled as retired while a load balancer can be had. */
  lemma LabelOrphans(s: State)
    requires s.at.Idle? && HasFinalizer(s) && Retired(s.service.value) && !HashChanged(s.service.value)
    requires AtMostOne(Findable(s.lbs)) && (Findable(s.lbs) != {} || !s.service.value.ingress)
    ensures Doomed(s)
  {
    var on, off := PlainSpec(), s.service.value.spec;
    var t := Next(s, Edit(on));
    PlainFits(on, t.service.value.ingress, t.lbs);
    var id := TakesUp(t);
    var u := Run(t, 4);
    var v := Next(u, Stop);
    LabelHides(Next(v, Edit(off)), id);
    DoomedEarlier(v, Edit(off));
    DoomedEarlier(u, Stop);
    DoomedBeforeRun(t, 4);
    DoomedEarlier(s, Edit(on));
  }

  /** A service that retires between the start of a run and its finalizer step: the step reads
      it afresh, so the run deletes what there is and then labels it as retired. */
  lemma RetirementOrphans(s: State)
    requires s.at.AddFinalizer? && s.service.Some? && CloudInv(s) && LabelFits(s.service.value, s.lbs)
    requires Retired(s.service.value) && !LeavesNothing(s.service.value, s.lbs)
    ensures Doomed(s)
  {
    RetiredChanged(s.service.value, s.lbs);
    var a := Advance(s);
    LookSucceeds(a, a.at.snap);
    var b := Advance(a);
    RetirementLeaves(b);
    var c := Advance(b);
    var d := Advance(c);
    LabelOrphans(Next(d, Stop));
    DoomedEarlier(d, Stop);
    DoomedEarlier(c, Step);
    RunThree(s, a, b, c);
    DoomedBeforeRun(s, 3);
  }

  lemma RetiredChanged(svc: Service, lbs: map<nat, Balancer>)
    requires LabelFits(svc, lbs) && Retired(svc) && !LeavesNothing(svc, lbs)
    ensures HashChanged(svc)
  {
    assert Named(lbs) <= Findable(lbs);
  }

  /** What a retired service's run leaves before it writes the label. */
  lemma RetirementLeaves(s: State)
    requires s.at.Attribute? && !s.at.cleaning && Retired(s.at.snap) && HashChanged(s.at.snap)
             && !LeavesNothing(s.at.snap, s.lbs)
    requires s.at.remote.None? ==> Findable(s.lbs) == {}
    requires s.at.remote.Some? ==> s.at.remote.value in s.lbs && Findable(s.lbs) == {s.at.remote.value}
    ensures var t := Advance(s);
            && t == s.(lbs := t.lbs, at := AddLabels(s.at.snap)) && AtMostOne(Findable(t.lbs))
            && (Findable(t.lbs) != {} || !s.at.snap.ingress)
  {
    var t := Advance(s);
    assert Named(s.lbs) <= Findable(s.lbs);
    if s.at.remote.Some? {
      var id := s.at.remote.value;
      SetsAfterRemoval(s.lbs, id);
      if id in t.lbs { SetsAfterUpdate(s.lbs, id, t.lbs[id]); }
    }
  }

  lemma HarmAtFinalizerIsDoom(s: State)
    requires CloudInv(s) && s.at.AddFinalizer? && s.service.Some? && LabelFits(s.service.value, s.lbs)
    requires !HarmlessAtFinalizer(s.service.value, s.lbs)
    ensures Doomed(s)
  {
    var svc := s.service.value;
    if Harmless(svc.(finalizer := true), s.lbs) {
      RetirementOrphans(s);
    } else if Harmless(svc, s.lbs) {
      var t := Advance(s);
      HarmIsDoom(Next(t, Stop));
      DoomedEarlier(t, Stop);
      DoomedEarlier(s, Step);
    } else {
      HarmIsDoom(Next(s, Stop));
      DoomedEarlier(s, Stop);
    }
  }

  /** A run that may leave the service harmful is doomed. */
  lemma {:induction false} HarmAheadIsDoom(s: State)
    requires RunInv(s) && !StaysHarmless(s)
    ensures Doomed(s)
    decreases Rank(s.at)
  {
    if MayStop(s) && !HarmlessNow(s) {
      HarmNowIsDoom(s);
    } else if HasSnapshot(s.at) {
      RankFalls(s);
      if !StaysHarmless(Advance(s)) {
        RunKept(s);
        HarmAheadIsDoom(Advance(s));
        DoomedEarlier(s, Step);
      } else if GoesOn(s.at) && MayPassOver(s) && !StaysHarmless(PassOver(s)) {
        PassOverKept(s);
        HarmAheadIsDoom(PassOver(s));
        DoomedEarlier(s, Swallow);
      } else if s.at.Find? && s.at.snap.spec.reuse.Some? && !StaysHarmless(Vanished(s)) {
        VanishingKept(s);
        HarmAheadIsDoom(Vanished(s));
        VanishingOrphans(s);
      } else {
        StaysHarmlessBy(s);
      }
    } else {
      StaysHarmlessBy(s);
    }
  }

  lemma HarmNowIsDoom(s: State)
    requires RunInv(s) && MayStop(s) && !HarmlessNow(s)
    ensures Doomed(s)
  {
    if s.at.AddFinalizer? {
      HarmAtFinalizerIsDoom(s);
    } else {
      HarmIsDoom(Next(s, Stop));
      DoomedEarlier(s, Stop);
    }
  }

  lemma VanishingOrphans(s: State)
    requires s.at.Find? && s.at.snap.spec.reuse.Some? && Doomed(Vanished(s))
    ensures Doomed(s)
  {
    var gone := Remove(s.at.snap.spec.reuse.value);
    assert Advance(Next(s, gone)) == Vanished(s);
    DoomedEarlier(Next(s, gone), Step);
    DoomedEarlier(s, gone);
  }

  /** A run that takes tag and name away from its load balancer. */
  lemma MisfitIsDoom(s: State, id: nat, crowded: bool)
    requires RunInv(s) && !UpdateFits(Next(s, Crowd(id, crowded)))
    ensures Doomed(Next(s, Crowd(id, crowded)))
  {
    var t := Next(s, Crowd(id, crowded));
    SetsAfterCrowding(s.lbs, id, crowded);
    LookSucceeds(t, t.at.snap);
    match t.at
    case Find(_, _) =>
      MisfitAtAddTag(Advance(Advance(t)));
      DoomedEarlier(Advance(t), Step);
      DoomedEarlier(t, Step);
    case Attribute(_, _, _) =>
      MisfitAtAddTag(Advance(t));
      DoomedEarlier(t, Step);
    case AddTag(_, _, _) => MisfitAtAddTag(t);
    case _ => assert false;
  }

  lemma MisfitAtAddTag(s: State)
    requires s.at.AddTag? && HasFinalizer(s) && s.at.snap.spec.reuse.None?
    requires s.at.id in Held(s.lbs) && Findable(s.lbs) == {s.at.id} && !NameSafe(s.lbs[s.at.id], s.at.snap.spec)
    ensures Doomed(s)
  {
    UpdateRuns(s);
    NameSafeIsExact(s.lbs[s.at.id], s.at.snap.spec);
    var t := Run(s, 3);
    SetsAfterUpdate(s.lbs, s.at.id, t.lbs[s.at.id]);
    assert s.at.id in Held(t.lbs);
    LostOrphans(t);
    DoomedBeforeRun(s, 3);
  }

  /** The condition is exact: dropped, some run of allowed actions ends with a load balancer that
      nothing will delete. */
  lemma AllowedIsExact(s: State, a: Action)
    requires Inv(s)
    ensures Allowed(s, a) <==> !Doomed(Next(s, a))
  {
    var t := Next(s, a);
    if Allowed(s, a) {
      InvKept(s, a);
      forall rest | AllAllowed(t, rest)
        ensures Safe(Exec(t, rest))
      {
        InvAlong(t, rest);
        InvIsSafe(Exec(t, rest));
      }
    } else {
      ForbiddenIsDoom(s, a);
    }
  }

  lemma ForbiddenIsDoom(s: State, a: Action)
    requires Inv(s) && !Allowed(s, a)
    ensures Doomed(Next(s, a))
  {
    var t := Next(s, a);
    match a
    case Stop =>
      assert s.at.id in Held(s.lbs);
      LostOrphans(t);
    case Swallow =>
      SwallowedTagOrphans(s);
    case Edit(_) =>
      HarmAheadIsDoom(t);
    case Crowd(id, crowded) =>
      if UpdateFits(t) {
        CrowdKeeps(s, id, crowded);
        HarmAheadIsDoom(t);
      } else {
        MisfitIsDoom(s, id, crowded);
      }
    case _ =>
  }

  /** A load balancer without the lookup tag that is about to be renamed is forgotten if it is filled
      up with tags before. */
  lemma CrowdingOrphans(s: State, id: nat)
    requires Inv(s) && s.at.Idle? && s.service.Some? && OnDuty(s.service.value) && HashChanged(s.service.value)
    requires s.service.value.spec.reuse.None? && s.service.value.spec.customName
    requires id in s.lbs && s.lbs[id].tag.Absent? && s.lbs[id].defaultNamed
    ensures Doomed(Next(s, Crowd(id, true)))
  {
    var t := Next(s, Crowd(id, true));
    assert id in Findable(t.lbs) && !NameSafe(t.lbs[id], s.service.value.spec);
    ForbiddenIsDoom(s, Crowd(id, true));
  }

  /** A spec that asks for no name or tag of its own, and that neither names a load balancer to
      reuse nor hands the service over. */
  ghost predicate Ordinary(spec: Spec) {
    Plain(spec) && spec.reuse.None? && !(spec.isLoadBalancer && spec.foreignClass)
  }

  lemma {:induction false} OrdinaryStaysHarmless(s: State)
    requires s.service.Some? && Ordinary(s.service.value.spec)
    requires s.at.AddFinalizer? ==> s.service.value.spec.isLoadBalancer
    ensures StaysHarmless(s)
    decreases Rank(s.at)
  {
    PlainFits(s.service.value.spec, s.service.value.ingress, s.lbs);
    if HasSnapshot(s.at) {
      RankFalls(s);
      OrdinaryStaysHarmless(Advance(s));
      if GoesOn(s.at) { OrdinaryStaysHarmless(PassOver(s)); }
      if s.at.Find? && s.at.snap.spec.reuse.Some? { OrdinaryStaysHarmless(Vanished(s)); }
    }
    StaysHarmlessBy(s);
  }

  /** Such an edit is allowed at any time, but for a change of type just before the finalizer
      step. */
  lemma OrdinaryIsAllowed(s: State, spec: Spec)
    requires Ordinary(spec) && (s.at.AddFinalizer? ==> spec.isLoadBalancer)
    requires s.service.Some?
    ensures Allowed(s, Edit(spec))
  {
    OrdinaryStaysHarmless(Next(s, Edit(spec)));
  }

  /** A tag that fails before the new name is given. */
  lemma SwallowedTagOrphans(s: State)
    requires Inv(s) && s.at.AddTag? && TagIsDue(s) && s.at.snap.spec.customName
    ensures Doomed(Next(s, Swallow))
  {
    var t := Next(s, Swallow);
    var u := Advance(t);
    var id := s.at.id;
    SetsAfterUpdate(s.lbs, id, u.lbs[id]);
    assert id in Held(u.lbs);
    LostOrphans(u);
    DoomedEarlier(t, Step);
  }
}
