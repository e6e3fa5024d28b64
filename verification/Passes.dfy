/** Components and whole passes: reconcileComponent, deleteComponentResources and Reconcile. */
module Passes {
  import opened Text
  import opened Model
  import opened Names
  import opened Resources
  import opened Compare
  import opened Plan
  import opened PlanFacts
  import opened Interleave
  import opened Probes
  import opened Api
  import opened Reconciler

  /** A stage of a pass did some of its plan, and all of it when it reports success. */
  ghost predicate Stage(p: Actions, ok: bool, s: Store, t: Store)
  {
    Partial(p, s, t) && (ok ==> Completed(p, s, t))
  }

  lemma FullStage(p: Actions, s: Store, t: Store)
    requires Completed(p, s, t)
    ensures Stage(p, true, s, t)
  {
    CompletedIsPartial(p, s, t);
  }

  lemma EmptyStage(p: Actions, s: Store)
    ensures Stage(p, false, s, s)
    ensures Stage([], true, s, s)
  {
    PartialNothing(p, s);
    PartialNothing([], s);
    forall k ensures At(s, k) == Effects([], k, At(s, k)) {}
  }

  /** A stage that is reached only after success of the one before. */
  lemma Then(p: Actions, q: Actions, ok1: bool, ok2: bool, s: Store, t: Store, u: Store)
    requires Stage(p, ok1, s, t) && Stage(q, ok2, t, u) && (ok2 ==> ok1)
    ensures Stage(p + q, ok2, s, u)
  {
    PartialConcat(p, q, s, t, u);
    if ok2 { CompletedConcat(p, q, s, t, u); }
  }

  lemma ItemStage(p: Actions, ok: bool, s: Store, t: Store)
    requires if ok then Completed(p, s, t) else t == s
    ensures Stage(p, ok, s, t)
  {
    if ok { FullStage(p, s, t); } else { EmptyStage(p, s); }
  }

  // ----- Services -----

  lemma {:induction false} EnsureAllConcat(who: Who, c: Component, xs: seq<Item>, ys: seq<Item>)
    ensures EnsureAll(who, c, xs + ys) == EnsureAll(who, c, xs) + EnsureAll(who, c, ys)
  {
    if xs == [] {
      assert xs + ys == ys;
    } else {
      assert (xs + ys)[1..] == xs[1..] + ys;
      EnsureAllConcat(who, c, xs[1..], ys);
    }
  }

  lemma EnsureAllOne(who: Who, c: Component, x: Item)
    ensures EnsureAll(who, c, [x]) == [EnsureItem(who, c, x)]
  {
    assert [x][1..] == [];
  }

  lemma NamesGrow(xs: seq<Item>, x: Item)
    ensures NamesOf(xs + [x]) == NamesOf(xs) + {x.key.name}
  {
    forall n | n in NamesOf(xs) + {x.key.name} ensures n in NamesOf(xs + [x]) {
      if n == x.key.name {
        assert x in xs + [x];
      } else {
        var y :| y in xs && y.key.name == n;
        assert y in xs + [x];
      }
    }
  }

  /** The reconcile loop over the wanted services; it also collects their names. */
  method EnsureServices(api: ApiServer, who: Who, c: Component, xs: seq<Item>) returns (ok: bool, desired: set<string>)
    requires forall x :: x in xs ==> x.obj.body.ServiceBody?
    modifies api
    ensures api.tests == old(api.tests) && api.Calm(old(api.clock), old(api.failures))
    ensures !ok ==> api.failures > old(api.failures)
    ensures Stage(EnsureAll(who, c, xs), ok, old(api.objects), api.objects)
    ensures ok ==> desired == NamesOf(xs)
  {
    desired := {};
    ghost var s := api.objects;
    EmptyStage([], s);
    for i := 0 to |xs|
      invariant api.tests == old(api.tests) && api.Calm(old(api.clock), old(api.failures))
      invariant Stage(EnsureAll(who, c, xs[..i]), true, s, api.objects)
      invariant desired == NamesOf(xs[..i])
    {
      ghost var t := api.objects;
      var done := ReconcileService(api, who, c, xs[i]);
      assert xs[..i + 1] == xs[..i] + [xs[i]];
      NamesGrow(xs[..i], xs[i]);
      desired := desired + {xs[i].key.name};
      EnsureAllOne(who, c, xs[i]);
      EnsureAllConcat(who, c, xs[..i], [xs[i]]);
      ItemStage([EnsureItem(who, c, xs[i])], done, t, api.objects);
      Then(EnsureAll(who, c, xs[..i]), [EnsureItem(who, c, xs[i])], true, done, s, t, api.objects);
      if !done {
        assert xs == xs[..i + 1] + xs[i + 1..];
        EnsureAllConcat(who, c, xs[..i + 1], xs[i + 1..]);
        EmptyStage(EnsureAll(who, c, xs[i + 1..]), api.objects);
        Then(EnsureAll(who, c, xs[..i + 1]), EnsureAll(who, c, xs[i + 1..]), false, false, s, api.objects, api.objects);
        return false, desired;
      }
    }
    assert xs[..|xs|] == xs;
    ok := true;
  }

  lemma SweepProgress(a: Action, victims: set<Key>, left: set<Key>, s: Store, t: Store)
    requires a.op.Sweep? && forall k :: k in victims <==> Hits(a, k, At(s, k))
    requires left <= victims && forall k :: At(t, k) == if k in victims && k !in left then None else At(s, k)
    ensures Stage([a], left == {}, s, t)
  {
    assert [a][1..] == [];
    forall k ensures Reachable([a], k, At(s, k), At(t, k)) && (left == {} ==> At(t, k) == Effects([a], k, At(s, k))) {
      assert Effect(a, k, At(s, k)) == if k in victims then None else At(s, k);
      NothingReachable([], k, At(t, k));
      assert Reachable([a], k, At(s, k), At(t, k)) ==
        (Reachable([], k, At(s, k), At(t, k)) || Reachable([], k, Effect(a, k, At(s, k)), At(t, k)));
    }
  }

  /** Deletes listed objects one by one. */
  method DeleteEach(api: ApiServer, a: Action, victims: set<Key>) returns (ok: bool)
    requires a.op.Sweep? && forall k :: k in victims <==> Hits(a, k, At(api.objects, k))
    modifies api
    ensures api.tests == old(api.tests) && api.Calm(old(api.clock), old(api.failures))
    ensures !ok ==> api.failures > old(api.failures)
    ensures Stage([a], ok, old(api.objects), api.objects)
  {
    ghost var s := api.objects;
    var left := victims;
    SweepProgress(a, victims, left, s, s);
    while left != {}
      invariant api.tests == old(api.tests) && api.Calm(old(api.clock), old(api.failures))
      invariant left <= victims
      invariant forall k :: At(api.objects, k) == if k in victims && k !in left then None else At(s, k)
      decreases |left|
    {
      var k :| k in left;
      SweepProgress(a, victims, left, s, api.objects);
      assert At(api.objects, k) == At(s, k);
      var err := api.Delete(k);
      if err != Ok {
        return false;
      }
      left := left - {k};
    }
    SweepProgress(a, victims, left, s, api.objects);
    ok := true;
  }

  lemma {:induction false} EnsureAllElsewhere(who: Who, c: Component, xs: seq<Item>, k: Key, slot: Slot)
    requires forall x :: x in xs ==> x.key != k
    ensures Effects(EnsureAll(who, c, xs), k, slot) == slot
  {
    if xs != [] {
      assert EnsureAll(who, c, xs)[1..] == EnsureAll(who, c, xs[1..]);
      assert xs[0] in xs;
      EnsureAllElsewhere(who, c, xs[1..], k, slot);
    }
  }

  /** Names that were listed before the loop, and are not wanted, are still what they were. */
  lemma SnapshotStillValid(who: Who, c: Component, xs: seq<Item>, listed: set<Key>, s: Store, t: Store)
    requires Completed(EnsureAll(who, c, xs), s, t)
    requires forall k :: k in listed <==> Hit(who, c, Service, ByLabel({}), k, At(s, k))
    ensures var sweep := Action(who, c, Sweep(Service, ByLabel(NamesOf(xs))));
      forall k :: (k in listed && k.name !in NamesOf(xs)) <==> Hits(sweep, k, At(t, k))
  {
    forall k
      ensures (k in listed && k.name !in NamesOf(xs)) <==> Hit(who, c, Service, ByLabel(NamesOf(xs)), k, At(t, k))
    {
      if k.name !in NamesOf(xs) {
        EnsureAllElsewhere(who, c, xs, k, At(s, k));
        assert At(t, k) == At(s, k);
      }
    }
  }

  lemma SnapStage(a: Action, s: Store)
    requires a.op.Snap?
    ensures Stage([a], true, s, s)
  {
    assert [a][1..] == [];
    forall k ensures At(s, k) == Effects([a], k, At(s, k)) {}
    FullStage([a], s, s);
  }

  lemma FourStages(p1: Actions, p2: Actions, p3: Actions, p4: Actions,
                   ok1: bool, ok2: bool, ok3: bool, ok4: bool, s0: Store, s1: Store, s2: Store, s3: Store, s4: Store)
    requires Stage(p1, ok1, s0, s1) && Stage(p2, ok2, s1, s2) && Stage(p3, ok3, s2, s3) && Stage(p4, ok4, s3, s4)
    requires (ok2 ==> ok1) && (ok3 ==> ok2) && (ok4 ==> ok3)
    ensures Stage(p1 + p2 + p3 + p4, ok4, s0, s4)
  {
    Then(p1, p2, ok1, ok2, s0, s1, s2);
    Then(p1 + p2, p3, ok2, ok3, s0, s2, s3);
    Then(p1 + p2 + p3, p4, ok3, ok4, s0, s3, s4);
  }

  /** List, reconcile the wanted services, delete what was listed and is not wanted, reconcile again. */
  method ReconcileServices(api: ApiServer, who: Who, c: Component, xs: seq<Item>) returns (ok: bool)
    requires forall x :: x in xs ==> x.obj.body.ServiceBody?
    modifies api
    ensures api.tests == old(api.tests) && api.Calm(old(api.clock), old(api.failures))
    ensures !ok ==> api.failures > old(api.failures)
    ensures Stage(ServicePlan(who, c, xs), ok, old(api.objects), api.objects)
  {
    ghost var mode := ByLabel(NamesOf(xs));
    ghost var snap, es := Action(who, c, Snap(Service, mode)), EnsureAll(who, c, xs);
    ghost var sweep := Action(who, c, Sweep(Service, mode));
    ghost var s0 := api.objects;
    SnapStage(snap, s0);
    var err, listed := api.ListLabelled(Service, who, c);
    if err != Ok {
      EmptyStage(ServicePlan(who, c, xs), s0);
      return false;
    }
    var done, desired := EnsureServices(api, who, c, xs);
    ghost var s1 := api.objects;
    EmptyStage([sweep], s1);
    EmptyStage(es, s1);
    if !done {
      FourStages([snap], es, [sweep], es, true, false, false, false, s0, s0, s1, s1, s1);
      return false;
    }
    SnapshotStillValid(who, c, xs, listed, s0, s1);
    done := DeleteEach(api, Action(who, c, Sweep(Service, ByLabel(desired))), set k | k in listed && k.name !in desired);
    ghost var s2 := api.objects;
    EmptyStage(es, s2);
    if !done {
      FourStages([snap], es, [sweep], es, true, true, false, false, s0, s0, s1, s2, s2);
      return false;
    }
    ok, desired := EnsureServices(api, who, c, xs);
    FourStages([snap], es, [sweep], es, true, true, true, ok, s0, s0, s1, s2, api.objects);
  }

  // ----- Objects that exist only on demand -----

  /** List by label, then delete everything listed. */
  method PurgeLabelled(api: ApiServer, who: Who, c: Component, kind: Kind) returns (ok: bool)
    modifies api
    ensures api.tests == old(api.tests) && api.Calm(old(api.clock), old(api.failures))
    ensures !ok ==> api.failures > old(api.failures)
    ensures Stage(Purge(who, c, kind, ByLabel({})), ok, old(api.objects), api.objects)
  {
    ghost var snap := Action(who, c, Snap(kind, ByLabel({})));
    var sweep := Action(who, c, Sweep(kind, ByLabel({})));
    ghost var s := api.objects;
    SnapStage(snap, s);
    EmptyStage([sweep], s);
    assert Purge(who, c, kind, ByLabel({})) == [snap] + [sweep];
    var err, listed := api.ListLabelled(kind, who, c);
    if err != Ok {
      Then([snap], [sweep], true, false, s, s, s);
      return false;
    }
    ok := DeleteEach(api, sweep, listed);
    Then([snap], [sweep], true, ok, s, s, api.objects);
  }

  method ReconcileAccountOrPurge(api: ApiServer, who: Who, c: Component, x: Option<Item>) returns (ok: bool)
    requires x.Some? ==> x.value.obj.body.AccountBody?
    modifies api
    ensures api.tests == old(api.tests) && api.Calm(old(api.clock), old(api.failures))
    ensures !ok ==> api.failures > old(api.failures)
    ensures Stage(EnsureOrPurge(who, c, ServiceAccount, x), ok, old(api.objects), api.objects)
  {
    ghost var s := api.objects;
    if x.Some? {
      ok := ReconcileServiceAccount(api, who, c, x.value);
      ItemStage([EnsureItem(who, c, x.value)], ok, s, api.objects);
    } else {
      ok := PurgeLabelled(api, who, c, ServiceAccount);
    }
  }

  /** What the monitor stage does: nothing unless its test finds the CRD. */
  function MonitorStage(available: bool, who: Who, c: Component, have: Option<Item>): Actions
  {
    if available then EnsureOrPurge(who, c, ServiceMonitor, have) else []
  }

  /** `have` is the monitor that survived the first test for the CRD. */
  method ReconcileMonitorOrPurge(api: ApiServer, who: Who, c: Component, have: Option<Item>) returns (ok: bool)
    requires have.Some? ==> have.value.obj.body.MonitorBody? && api.world.crd
    modifies api
    ensures TestedOnce(old(api.tests), api.tests, c) && api.Calm(old(api.clock), old(api.failures))
    ensures !ok ==> api.failures > old(api.failures) || !Answer(api.tests)
    ensures !api.outage(old(api.clock)) ==> Answer(api.tests)
    ensures Stage(MonitorStage(api.world.crd && Answer(api.tests), who, c, have), ok, old(api.objects), api.objects)
  {
    ghost var s := api.objects;
    EmptyStage([], s);
    if have.Some? {
      ok := ReconcileServiceMonitor(api, who, c, have.value);
      if Answer(api.tests) {
        ItemStage([EnsureItem(who, c, have.value)], ok, s, api.objects);
      }
    } else {
      var err, available := api.MonitorCrdAvailable(c);
      ok := true;
      if available {
        ok := PurgeLabelled(api, who, c, ServiceMonitor);
      }
    }
  }

  // ----- reconcileComponent -----

  lemma ConfigStages(who: Who, c: Component, b: Bundle, ok1: bool, ok2: bool, s: Store, t: Store, u: Store)
    requires b.extra.None? && (ok2 ==> ok1)
    requires Stage([EnsureItem(who, c, b.config)], ok1, s, t) && Stage([EnsureItem(who, c, b.deployment)], ok2, t, u)
    ensures Stage(ConfigPlan(who, c, b), ok2, s, u)
  {
    Then([EnsureItem(who, c, b.config)], [EnsureItem(who, c, b.deployment)], ok1, ok2, s, t, u);
    assert ConfigPlan(who, c, b) == [EnsureItem(who, c, b.config)] + [EnsureItem(who, c, b.deployment)];
  }

  predicate TypedBundle(b: Bundle)
  {
    && b.config.obj.body.ConfigBody? && b.deployment.obj.body.DeploymentBody?
    && (b.extra.Some? ==> b.extra.value.obj.body.ConfigBody?)
    && (forall x :: x in b.services ==> x.obj.body.ServiceBody?)
    && (b.monitor.Some? ==> b.monitor.value.obj.body.MonitorBody?)
    && (b.claim.Some? ==> b.claim.value.obj.body.ClaimBody?)
    && (b.account.Some? ==> b.account.value.obj.body.AccountBody?)
  }

  /** The ConfigMap, and with its hash the Deployment. */
  method ReconcileConfigAndDeployment(api: ApiServer, cr: Open5GS, c: Component, b: Bundle, own: AnnotationMap?)
    returns (ok: bool)
    requires TypedBundle(b) && b.extra.None?
    requires own == if IsUpf(cr.who, b.deployment.key) then cr.annotations else null
    requires b.deployment.obj.body.deployment.template.annotations
          == Entries(own)[HashKey() := api.world.digest(b.config.obj.body.data)]
    modifies api, own
    ensures api.tests == old(api.tests) && api.Calm(old(api.clock), old(api.failures))
    ensures !ok ==> api.failures > old(api.failures)
    ensures Stage(ConfigPlan(cr.who, c, b), ok, old(api.objects), api.objects)
  {
    ghost var s := api.objects;
    var done, hash := ReconcileConfigMap(api, cr.who, c, b.config);
    ghost var t := api.objects;
    ItemStage([EnsureItem(cr.who, c, b.config)], done, s, t);
    EmptyStage([EnsureItem(cr.who, c, b.deployment)], t);
    if !done {
      ConfigStages(cr.who, c, b, false, false, s, t, t);
      return false;
    }
    var x := b.deployment;
    assert WithAnnotations(x.obj, Entries(own)[HashKey() := hash]) == x.obj;
    assert x.(obj := x.obj) == x;
    ok := ReconcileDeployment(api, cr, c, x, own, hash);
    ItemStage([EnsureItem(cr.who, c, x)], ok, t, api.objects);
    ConfigStages(cr.who, c, b, true, ok, s, t, api.objects);
  }

  method ReconcileClaimIfAny(api: ApiServer, who: Who, c: Component, x: Option<Item>) returns (ok: bool)
    requires x.Some? ==> x.value.obj.body.ClaimBody?
    modifies api
    ensures api.tests == old(api.tests) && api.Calm(old(api.clock), old(api.failures))
    ensures !ok ==> api.failures > old(api.failures)
    ensures Stage(EnsureOpt(who, c, x), ok, old(api.objects), api.objects)
  {
    ghost var s := api.objects;
    EmptyStage([], s);
    ok := true;
    if x.Some? {
      ok := ReconcileClaim(api, who, c, x.value);
      ItemStage([EnsureItem(who, c, x.value)], ok, s, api.objects);
    }
  }

  /** The PersistentVolumeClaim and the ServiceAccount, the last two kinds of a component. */
  method ReconcileClaimAndAccount(api: ApiServer, who: Who, c: Component, b: Bundle) returns (ok: bool)
    requires TypedBundle(b)
    modifies api
    ensures api.tests == old(api.tests) && api.Calm(old(api.clock), old(api.failures))
    ensures !ok ==> api.failures > old(api.failures)
    ensures Stage(EnsureOpt(who, c, b.claim) + EnsureOrPurge(who, c, ServiceAccount, b.account), ok,
                  old(api.objects), api.objects)
  {
    ghost var p, q := EnsureOpt(who, c, b.claim), EnsureOrPurge(who, c, ServiceAccount, b.account);
    ghost var s := api.objects;
    var done := ReconcileClaimIfAny(api, who, c, b.claim);
    ghost var t := api.objects;
    EmptyStage(q, t);
    ok := false;
    if done {
      ok := ReconcileAccountOrPurge(api, who, c, b.account);
    }
    Then(p, q, done, ok, s, t, api.objects);
  }

  /** The ConfigMap, the Deployment and the Services. */
  method ReconcileWorkload(api: ApiServer, cr: Open5GS, c: Component, b: Bundle, own: AnnotationMap?)
    returns (ok: bool)
    requires TypedBundle(b) && b.extra.None?
    requires own == if IsUpf(cr.who, b.deployment.key) then cr.annotations else null
    requires b.deployment.obj.body.deployment.template.annotations
          == Entries(own)[HashKey() := api.world.digest(b.config.obj.body.data)]
    modifies api, own
    ensures api.tests == old(api.tests) && api.Calm(old(api.clock), old(api.failures))
    ensures !ok ==> api.failures > old(api.failures)
    ensures Stage(ConfigPlan(cr.who, c, b) + ServicePlan(cr.who, c, b.services), ok, old(api.objects), api.objects)
  {
    ghost var p, q := ConfigPlan(cr.who, c, b), ServicePlan(cr.who, c, b.services);
    ghost var s := api.objects;
    var done := ReconcileConfigAndDeployment(api, cr, c, b, own);
    ghost var t := api.objects;
    EmptyStage(q, t);
    ok := false;
    if done {
      ok := ReconcileServices(api, cr.who, c, b.services);
    }
    Then(p, q, done, ok, s, t, api.objects);
  }

  lemma ComponentStages(who: Who, c: Component, b: Bundle, m: Actions, ok1: bool, ok2: bool, ok3: bool,
                        s0: Store, s1: Store, s2: Store, s3: Store)
    requires Stage(ConfigPlan(who, c, b) + ServicePlan(who, c, b.services), ok1, s0, s1) && Stage(m, ok2, s1, s2)
    requires Stage(EnsureOpt(who, c, b.claim) + EnsureOrPurge(who, c, ServiceAccount, b.account), ok3, s2, s3)
    requires (ok2 ==> ok1) && (ok3 ==> ok2)
    ensures Stage(EnablePlanWith(who, c, b, m), ok3, s0, s3)
  {
    var p1, p4, p5 := ConfigPlan(who, c, b) + ServicePlan(who, c, b.services), EnsureOpt(who, c, b.claim),
      EnsureOrPurge(who, c, ServiceAccount, b.account);
    Then(p1, m, ok1, ok2, s0, s1, s2);
    Then(p1 + m, p4 + p5, ok2, ok3, s0, s2, s3);
    assert p1 + m + (p4 + p5) == p1 + m + p4 + p5;
  }

  /** The tests made since. */
  function Since(before: Tests, after: Tests): Tests
    requires before <= after
  {
    after[|before|..]
  }

  /** All tests made in between belong to the turn of `c`. */
  predicate TurnTests(before: Tests, after: Tests, c: Component)
  {
    before <= after && AllOf(Since(before, after), c)
  }

  /** What a component's turn saw of the CRD. */
  function TurnProbe(before: Tests, after: Tests, c: Component): Probe
    requires before <= after
  {
    ProbeFor(Since(before, after), c)
  }

  lemma OneOrTwoAnswers(ts: Tests, c: Component)
    requires AllOf(ts, c) && 1 <= |ts| <= 2
    ensures AnswersFor(ts, c) == if |ts| == 1 then [ts[0].answered] else [ts[0].answered, ts[1].answered]
  {
    if |ts| == 2 { assert ts[1..][1..] == []; } else { assert ts[1..] == []; }
  }

  /** The tests of a turn that reached the monitor stage. `first` is the one that was made when the wanted
      objects were collected, if any. */
  predicate MonitorTested(first: Option<bool>, ts: Tests, c: Component)
  {
    AllOf(ts, c) && |ts| == (if first.Some? then 2 else 1) && (first.Some? ==> ts[0].answered == first.value)
  }

  lemma MonitorStageSeen(crd: bool, who: Who, c: Component, b: Bundle, first: Option<bool>, have: Option<Item>, ts: Tests)
    requires have == if first == Some(true) && crd then b.monitor else None
    requires (b.monitor.Some? ==> first.Some?) && MonitorTested(first, ts, c)
    ensures var probe := ProbeFor(ts, c);
      MonitorPlan(CrdSeen(crd, probe), who, c, BundleSeen(b, probe)) == MonitorStage(crd && Answer(ts), who, c, have)
  {
    OneOrTwoAnswers(ts, c);
  }

  lemma SeenEnablePlan(crd: bool, who: Who, c: Component, b: Bundle, probe: Probe)
    ensures EnablePlan(CrdSeen(crd, probe), who, c, BundleSeen(b, probe))
         == EnablePlanWith(who, c, b, MonitorPlan(CrdSeen(crd, probe), who, c, BundleSeen(b, probe)))
  {
  }

  /** The three parts of a component's turn make up the plan that its tests let it see. */
  lemma TurnStages(crd: bool, who: Who, c: Component, b: Bundle, first: Option<bool>, have: Option<Item>, ts: Tests,
                   ok1: bool, ok2: bool, ok3: bool, s0: Store, s1: Store, s2: Store, s3: Store)
    requires have == if first == Some(true) && crd then b.monitor else None
    requires b.monitor.Some? ==> first.Some?
    requires Stage(ConfigPlan(who, c, b) + ServicePlan(who, c, b.services), ok1, s0, s1)
    requires if ok1 then MonitorTested(first, ts, c) && Stage(MonitorStage(crd && Answer(ts), who, c, have), ok2, s1, s2)
             else s2 == s1 && !ok2
    requires Stage(EnsureOpt(who, c, b.claim) + EnsureOrPurge(who, c, ServiceAccount, b.account), ok3, s2, s3) && (ok3 ==> ok2)
    ensures var probe := ProbeFor(ts, c); Stage(EnablePlan(CrdSeen(crd, probe), who, c, BundleSeen(b, probe)), ok3, s0, s3)
  {
    var probe := ProbeFor(ts, c);
    var m := MonitorPlan(CrdSeen(crd, probe), who, c, BundleSeen(b, probe));
    if ok1 { MonitorStageSeen(crd, who, c, b, first, have, ts); } else { EmptyStage(m, s1); }
    ComponentStages(who, c, b, m, ok1, ok2, ok3, s0, s1, s2, s3);
    SeenEnablePlan(crd, who, c, b, probe);
  }

  /** Only the next call fails. */
  ghost predicate OnlyNextFails(outage: nat -> bool, clock: nat)
  {
    outage(clock) && Quiet(outage, clock + 1)
  }

  /** The test made when the wanted objects are collected, for components whose builder passes a monitor
      argument at all; an error of that test counts as "not available". */
  method CollectMonitor(api: ApiServer, c: Component, b: Bundle, monitored: bool)
    returns (have: Option<Item>, ghost first: Option<bool>)
    requires b.monitor.Some? ==> monitored
    modifies api
    ensures api.objects == old(api.objects) && api.failures == old(api.failures)
    ensures first.Some? <==> monitored
    ensures have == if first == Some(true) && api.world.crd then b.monitor else None
    ensures api.tests == old(api.tests) + (if monitored then [Test(c, first.value)] else [])
    ensures api.clock == old(api.clock) + (if monitored then 1 else 0)
    ensures monitored ==> first == Some(!api.outage(old(api.clock)))
  {
    have, first := None, None;
    if monitored {
      var err, available := api.MonitorCrdAvailable(c);
      have := if available then b.monitor else None;
      first := Some(err == Ok);
    }
  }

  /** The monitor stage and the two kinds after it. */
  method ReconcileRest(api: ApiServer, who: Who, c: Component, b: Bundle, have: Option<Item>)
    returns (ok: bool, ghost ok2: bool, ghost s2: Store)
    requires TypedBundle(b) && (have.Some? ==> have == b.monitor && api.world.crd)
    modifies api
    ensures TestedOnce(old(api.tests), api.tests, c) && api.Calm(old(api.clock), old(api.failures))
    ensures !ok ==> api.failures > old(api.failures) || !Answer(api.tests)
    ensures !api.outage(old(api.clock)) ==> Answer(api.tests)
    ensures Stage(MonitorStage(api.world.crd && Answer(api.tests), who, c, have), ok2, old(api.objects), s2)
    ensures Stage(EnsureOpt(who, c, b.claim) + EnsureOrPurge(who, c, ServiceAccount, b.account), ok, s2, api.objects)
    ensures ok ==> ok2
  {
    ok := ReconcileMonitorOrPurge(api, who, c, have);
    ok2, s2 := ok, api.objects;
    EmptyStage(EnsureOpt(who, c, b.claim) + EnsureOrPurge(who, c, ServiceAccount, b.account), s2);
    if ok {
      ok := ReconcileClaimAndAccount(api, who, c, b);
    }
  }

  lemma TestsOfTurn(t0: Tests, t1: Tests, t2: Tests, c: Component, first: Option<bool>)
    requires t1 == t0 + (if first.Some? then [Test(c, first.value)] else []) && TestedOnce(t1, t2, c)
    ensures TurnTests(t0, t2, c) && MonitorTested(first, Since(t0, t2), c) && Answer(Since(t0, t2)) == Answer(t2)
    ensures !Answer(t2) ==> !AllAnswered(Since(t0, t2))
    ensures first == Some(false) && Answer(t2) ==> TurnProbe(t0, t2, c) == Slips
  {
    var ts := Since(t0, t2);
    assert t2 == t1 + [t2[|t1|]];
    assert ts == (if first.Some? then [Test(c, first.value)] else []) + [t2[|t1|]];
    OneOrTwoAnswers(ts, c);
  }

  lemma TestsSoFar(t0: Tests, t1: Tests, c: Component, first: Option<bool>)
    requires t1 == t0 + (if first.Some? then [Test(c, first.value)] else [])
    ensures TurnTests(t0, t1, c)
  {
  }

  /** Everything after the collection of the wanted objects. `s1` and `s2` are the clusters around the
      monitor stage. */
  method ReconcileCollected(api: ApiServer, cr: Open5GS, c: Component, b: Bundle, have: Option<Item>, own: AnnotationMap?)
    returns (ok: bool, ghost ok1: bool, ghost ok2: bool, ghost s1: Store, ghost s2: Store)
    requires TypedBundle(b) && b.extra.None? && (have.Some? ==> have == b.monitor && api.world.crd)
    requires own == if IsUpf(cr.who, b.deployment.key) then cr.annotations else null
    requires b.deployment.obj.body.deployment.template.annotations
          == Entries(own)[HashKey() := api.world.digest(b.config.obj.body.data)]
    modifies api, own
    ensures if ok1 then TestedOnce(old(api.tests), api.tests, c) else api.tests == old(api.tests)
    ensures api.Calm(old(api.clock), old(api.failures))
    ensures !ok ==> api.failures > old(api.failures) || (ok1 && !Answer(api.tests))
    ensures Quiet(api.outage, old(api.clock)) ==> ok && ok1 && Answer(api.tests) && api.failures == old(api.failures)
    ensures Stage(ConfigPlan(cr.who, c, b) + ServicePlan(cr.who, c, b.services), ok1, old(api.objects), s1)
    ensures if ok1 then Stage(MonitorStage(api.world.crd && Answer(api.tests), cr.who, c, have), ok2, s1, s2)
            else s2 == s1 && !ok2
    ensures Stage(EnsureOpt(cr.who, c, b.claim) + EnsureOrPurge(cr.who, c, ServiceAccount, b.account), ok, s2, api.objects)
    ensures ok ==> ok2
  {
    ok := ReconcileWorkload(api, cr, c, b, own);
    s1, ok1, s2, ok2 := api.objects, ok, api.objects, false;
    EmptyStage(EnsureOpt(cr.who, c, b.claim) + EnsureOrPurge(cr.who, c, ServiceAccount, b.account), s1);
    if ok {
      ok, ok2, s2 := ReconcileRest(api, cr.who, c, b, have);
    }
  }

  /** reconcileComponent. `monitored` tells whether the builder passed a monitor argument. */
  method ReconcileComponent(api: ApiServer, cr: Open5GS, c: Component, b: Bundle, monitored: bool, own: AnnotationMap?)
    returns (ok: bool)
    requires TypedBundle(b) && b.extra.None? && (b.monitor.Some? ==> monitored)
    requires own == if IsUpf(cr.who, b.deployment.key) then cr.annotations else null
    requires b.deployment.obj.body.deployment.template.annotations
          == Entries(own)[HashKey() := api.world.digest(b.config.obj.body.data)]
    modifies api, own
    ensures TurnTests(old(api.tests), api.tests, c) && api.failures >= old(api.failures)
    ensures !ok ==> api.failures > old(api.failures) || !AllAnswered(Since(old(api.tests), api.tests))
    ensures var probe := TurnProbe(old(api.tests), api.tests, c);
      Stage(EnablePlan(CrdSeen(api.world.crd, probe), cr.who, c, BundleSeen(b, probe)), ok, old(api.objects), api.objects)
    ensures monitored && OnlyNextFails(api.outage, old(api.clock)) ==>
      ok && api.failures == old(api.failures) && TurnProbe(old(api.tests), api.tests, c) == Slips
  {
    ghost var s0, tests0 := api.objects, api.tests;
    var have;
    ghost var first, ok1, ok2, s1, s2;
    have, first := CollectMonitor(api, c, b, monitored);
    ghost var tests1 := api.tests;
    ok, ok1, ok2, s1, s2 := ReconcileCollected(api, cr, c, b, have, own);
    if ok1 { TestsOfTurn(tests0, tests1, api.tests, c, first); } else { TestsSoFar(tests0, tests1, c, first); }
    TurnStages(api.world.crd, cr.who, c, b, first, have, Since(tests0, api.tests), ok1, ok2, ok, s0, s1, s2, api.objects);
  }
}
