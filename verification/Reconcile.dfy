/** One pass of the Open5GS reconciler: every component is either reconciled or torn down. */
module Reconcile {
  import opened Text
  import opened Model
  import opened Names
  import opened Resources
  import opened Compare
  import opened Plan
  import opened Coherence
  import opened PlanFacts
  import opened Outcomes
  import opened Probes
  import opened Api
  import opened Reconciler
  import opened Passes

  // ----- Teardown -----

  /** Get, and delete if the CR owns it. */
  method DropIfOwned(api: ApiServer, who: Who, c: Component, kind: Kind) returns (ok: bool)
    modifies api
    ensures api.tests == old(api.tests) && api.Calm(old(api.clock), old(api.failures))
    ensures !ok ==> api.failures > old(api.failures)
    ensures Stage([Drop(who, c, kind)], ok, old(api.objects), api.objects)
  {
    var k := BaseKey(kind, who, c);
    ghost var a, s := Drop(who, c, kind), api.objects;
    EmptyStage([a], s);
    var err, slot := api.Get(k);
    if err == NotFound {
      KeepCompletes(a, k, s);
      FullStage([a], s, s);
      return true;
    }
    if err != Ok {
      return false;
    }
    if !HasOwner(slot.value, who.uid) {
      KeepCompletes(a, k, s);
      FullStage([a], s, s);
      return true;
    }
    DropCompletes(a, k, s);
    FullStage([a], s, s - {k});
    err := api.Delete(k);
    ok := err == Ok;
  }

  method DropTwo(api: ApiServer, who: Who, c: Component, k1: Kind, k2: Kind) returns (ok: bool)
    modifies api
    ensures api.tests == old(api.tests) && api.Calm(old(api.clock), old(api.failures))
    ensures !ok ==> api.failures > old(api.failures)
    ensures Stage([Drop(who, c, k1), Drop(who, c, k2)], ok, old(api.objects), api.objects)
  {
    ghost var s := api.objects;
    var first := DropIfOwned(api, who, c, k1);
    ghost var t := api.objects;
    EmptyStage([Drop(who, c, k2)], t);
    ok := false;
    if first {
      ok := DropIfOwned(api, who, c, k2);
    }
    Then([Drop(who, c, k1)], [Drop(who, c, k2)], first, ok, s, t, api.objects);
    assert [Drop(who, c, k1)] + [Drop(who, c, k2)] == [Drop(who, c, k1), Drop(who, c, k2)];
  }

  /** Lists every service of the namespace and deletes those with the prefix that the CR owns. */
  method DropServices(api: ApiServer, who: Who, c: Component) returns (ok: bool)
    modifies api
    ensures api.tests == old(api.tests) && api.Calm(old(api.clock), old(api.failures))
    ensures !ok ==> api.failures > old(api.failures)
    ensures Stage(Purge(who, c, Service, ByPrefix), ok, old(api.objects), api.objects)
  {
    ghost var snap := Action(who, c, Snap(Service, ByPrefix));
    var sweep := Action(who, c, Sweep(Service, ByPrefix));
    ghost var s := api.objects;
    SnapStage(snap, s);
    EmptyStage([sweep], s);
    assert Purge(who, c, Service, ByPrefix) == [snap] + [sweep];
    var err, items := api.List(Service, who.ns);
    if err != Ok {
      Then([snap], [sweep], true, false, s, s, s);
      return false;
    }
    var victims := set k | k in items.Keys && TeardownPrefix(who.name, c, k.name) && HasOwner(items[k], who.uid);
    forall k ensures k in victims <==> Hits(sweep, k, At(s, k)) {
      assert At(items, k) == if k.kind == Service && k.ns == who.ns then At(s, k) else None;
    }
    ok := DeleteEach(api, sweep, victims);
    Then([snap], [sweep], true, ok, s, s, api.objects);
  }

  function DropMonitorPlan(available: bool, who: Who, c: Component): Actions
  {
    if available then [Drop(who, c, ServiceMonitor)] else []
  }

  /** A failed test for the CRD counts as "not available": the monitor is left and the pass goes on. */
  method DropMonitor(api: ApiServer, who: Who, c: Component) returns (ok: bool)
    modifies api
    ensures TestedOnce(old(api.tests), api.tests, c) && api.failures >= old(api.failures)
    ensures !ok ==> api.failures > old(api.failures)
    ensures Stage(DropMonitorPlan(api.world.crd && Answer(api.tests), who, c), ok, old(api.objects), api.objects)
  {
    EmptyStage([], api.objects);
    var err, available := api.MonitorCrdAvailable(c);
    ok := true;
    if available {
      ok := DropIfOwned(api, who, c, ServiceMonitor);
    }
  }

  lemma DisableSeen(crd: bool, who: Who, c: Component, before: Tests, after: Tests)
    requires TestedOnce(before, after, c)
    ensures TurnTests(before, after, c)
    ensures DropMonitorPlan(CrdSeen(crd, TurnProbe(before, after, c)), who, c) == DropMonitorPlan(crd && Answer(after), who, c)
  {
    OneOrTwoAnswers(Since(before, after), c);
  }

  /** deleteComponentResources */
  method DeleteComponentResources(api: ApiServer, who: Who, c: Component) returns (ok: bool)
    modifies api
    ensures TurnTests(old(api.tests), api.tests, c) && api.failures >= old(api.failures)
    ensures !ok ==> api.failures > old(api.failures)
    ensures Stage(DisablePlan(CrdSeen(api.world.crd, TurnProbe(old(api.tests), api.tests, c)), who, c), ok,
                  old(api.objects), api.objects)
  {
    ghost var tests := api.tests;
    ghost var p1, p2 := [Drop(who, c, ConfigMap), Drop(who, c, Deployment)], Purge(who, c, Service, ByPrefix);
    ghost var p4 := [Drop(who, c, Claim), Drop(who, c, ServiceAccount)];
    ghost var s0 := api.objects;
    ok := DropTwo(api, who, c, ConfigMap, Deployment);
    ghost var s1, ok1 := api.objects, ok;
    EmptyStage(p2, s1);
    if ok {
      ok := DropServices(api, who, c);
    }
    ghost var s2, ok2 := api.objects, ok;
    if ok {
      ok := DropMonitor(api, who, c);
      DisableSeen(api.world.crd, who, c, tests, api.tests);
    }
    ghost var p3 := DropMonitorPlan(CrdSeen(api.world.crd, TurnProbe(tests, api.tests, c)), who, c);
    EmptyStage(p3, s2);
    ghost var s3, ok3 := api.objects, ok;
    EmptyStage(p4, s3);
    if ok {
      ok := DropTwo(api, who, c, Claim, ServiceAccount);
    }
    FourStages(p1, p2, p3, p4, ok1, ok2, ok3, ok, s0, s1, s2, s3, api.objects);
  }

  // ----- Enabled components -----

  lemma OptionalTyped(who: Who, c: Component, b: Bundle)
    requires GoodBundle(who, c, b)
    ensures b.extra.Some? ==> b.extra.value.obj.body.ConfigBody?
    ensures b.monitor.Some? ==> b.monitor.value.obj.body.MonitorBody?
  {
  }

  lemma StateTyped(who: Who, c: Component, b: Bundle)
    requires GoodBundle(who, c, b)
    ensures b.claim.Some? ==> b.claim.value.obj.body.ClaimBody?
    ensures b.account.Some? ==> b.account.value.obj.body.AccountBody?
  {
  }

  lemma CoreTyped(who: Who, c: Component, b: Bundle)
    requires GoodBundle(who, c, b)
    ensures b.config.obj.body.ConfigBody? && b.deployment.obj.body.DeploymentBody?
    ensures forall x :: x in b.services ==> x.obj.body.ServiceBody?
  {
    forall x | x in b.services ensures x.obj.body.ServiceBody? { assert OwnItem(who, c, x, Service); }
  }

  lemma GoodIsTyped(who: Who, c: Component, b: Bundle)
    requires GoodBundle(who, c, b)
    ensures TypedBundle(b)
  {
    OptionalTyped(who, c, b);
    StateTyped(who, c, b);
    CoreTyped(who, c, b);
  }

  lemma ExtraFirst(who: Who, c: Component, b: Bundle, m: Actions)
    ensures EnablePlanWith(who, c, b, m) == EnsureOpt(who, c, b.extra) + EnablePlanWith(who, c, b.(extra := None), m)
  {
    var e, core := EnsureOpt(who, c, b.extra), [EnsureItem(who, c, b.config), EnsureItem(who, c, b.deployment)];
    var p2, p4, p5 := ServicePlan(who, c, b.services), EnsureOpt(who, c, b.claim), EnsureOrPurge(who, c, ServiceAccount, b.account);
    assert [] + core == core;
    assert e + core + p2 + m + p4 + p5 == e + (core + p2 + m + p4 + p5);
  }

  lemma ExtraStage(crd: bool, who: Who, c: Component, b: Bundle, ok1: bool, ok2: bool, s: Store, t: Store, u: Store)
    requires Stage(EnsureOpt(who, c, b.extra), ok1, s, t) && Stage(EnablePlan(crd, who, c, b.(extra := None)), ok2, t, u)
    ensures Stage(EnablePlan(crd, who, c, b), ok1 && ok2, s, u)
  {
    var m := MonitorPlan(crd, who, c, b);
    assert MonitorPlan(crd, who, c, b.(extra := None)) == m;
    ExtraFirst(who, c, b, m);
    Then(EnsureOpt(who, c, b.extra), EnablePlan(crd, who, c, b.(extra := None)), ok1, ok1 && ok2, s, t, u);
  }

  /** The UPF builder reconciles the entrypoint ConfigMap first, and ignores whether that worked. */
  method EnsureExtra(api: ApiServer, who: Who, c: Component, x: Option<Item>) returns (ghost done: bool)
    requires x.Some? ==> x.value.obj.body.ConfigBody?
    modifies api
    ensures api.tests == old(api.tests) && api.Calm(old(api.clock), old(api.failures))
    ensures !done ==> api.failures > old(api.failures)
    ensures Stage(EnsureOpt(who, c, x), done, old(api.objects), api.objects)
    ensures x.None? ==> done && api.clock == old(api.clock) && api.failures == old(api.failures)
  {
    ghost var s := api.objects;
    EmptyStage([], s);
    done := true;
    if x.Some? {
      var ok, hash := ReconcileConfigMap(api, who, c, x.value);
      done := ok;
      ItemStage([EnsureItem(who, c, x.value)], ok, s, api.objects);
    }
  }

  lemma FitsParts(w: World, r: Resource, c: Component)
    ensures var b := BundleOf(w, r, c);
      && (b.monitor.Some? ==> HasMetrics(c)) && b.deployment.key == BaseKey(Deployment, r.core.who, c)
      && b.config.obj.body.ConfigBody? && b.deployment.obj.body.DeploymentBody?
      && b.deployment.obj.body.deployment.template.annotations
         == (if c == UPF then r.annotations else map[])[HashKey() := w.digest(b.config.obj.body.data)]
  {
  }

  lemma BundleFits(w: World, r: Resource, c: Component)
    ensures var b := BundleOf(w, r, c);
      && TypedBundle(b) && (b.monitor.Some? ==> HasMetrics(c))
      && b.deployment.key == BaseKey(Deployment, r.core.who, c)
      && b.deployment.obj.body.deployment.template.annotations
         == (if c == UPF then r.annotations else map[])[HashKey() := w.digest(b.config.obj.body.data)]
  {
    BundleIsGood(w, r, c);
    GoodIsTyped(r.core.who, c, BundleOf(w, r, c));
    FitsParts(w, r, c);
  }

  /** The second half of every builder: the entrypoint ConfigMap, if there is one, and then the component. */
  method ReconcileBuilt(api: ApiServer, cr: Open5GS, c: Component, b: Bundle, own: AnnotationMap?) returns (ok: bool)
    requires TypedBundle(b) && (b.monitor.Some? ==> HasMetrics(c))
    requires own == if IsUpf(cr.who, b.deployment.key) then cr.annotations else null
    requires b.deployment.obj.body.deployment.template.annotations
          == Entries(own)[HashKey() := api.world.digest(b.config.obj.body.data)]
    modifies api, own
    ensures TurnTests(old(api.tests), api.tests, c) && api.failures >= old(api.failures)
    ensures !ok ==> api.failures > old(api.failures) || !AllAnswered(Since(old(api.tests), api.tests))
    ensures var probe := TurnProbe(old(api.tests), api.tests, c);
      Stage(EnablePlan(CrdSeen(api.world.crd, probe), cr.who, c, BundleSeen(b, probe)),
            ok && api.failures == old(api.failures), old(api.objects), api.objects)
    ensures HasMetrics(c) && b.extra.None? && OnlyNextFails(api.outage, old(api.clock)) ==>
      ok && api.failures == old(api.failures) && TurnProbe(old(api.tests), api.tests, c) == Slips
  {
    ghost var s, tests := api.objects, api.tests;
    ghost var done := EnsureExtra(api, cr.who, c, b.extra);
    ghost var t := api.objects;
    ok := ReconcileComponent(api, cr, c, b.(extra := None), HasMetrics(c), own);
    ghost var probe := TurnProbe(tests, api.tests, c);
    assert BundleSeen(b.(extra := None), probe) == BundleSeen(b, probe).(extra := None);
    ExtraStage(CrdSeen(api.world.crd, probe), cr.who, c, BundleSeen(b, probe), done, ok, s, t, api.objects);
  }

  /** reconcileX: build the desired objects from the CR, then reconcile them. */
  method ReconcileEnabled(api: ApiServer, cr: Open5GS, c: Component) returns (ok: bool)
    modifies api, if c == UPF then cr.annotations else null
    ensures TurnTests(old(api.tests), api.tests, c) && api.failures >= old(api.failures)
    ensures !ok ==> api.failures > old(api.failures) || !AllAnswered(Since(old(api.tests), api.tests))
    ensures var probe := TurnProbe(old(api.tests), api.tests, c);
      Stage(EnablePlan(CrdSeen(api.world.crd, probe), cr.who, c, BundleSeen(BundleOf(api.world, old(cr.Value()), c), probe)),
            ok && api.failures == old(api.failures), old(api.objects), api.objects)
    ensures HasMetrics(c) && c != UPF && OnlyNextFails(api.outage, old(api.clock)) ==>
      ok && api.failures == old(api.failures) && TurnProbe(old(api.tests), api.tests, c) == Slips
  {
    var b := BundleOf(api.world, cr.Value(), c);
    BundleFits(api.world, cr.Value(), c);
    BaseIsUpf(cr.who, c);
    ok := ReconcileBuilt(api, cr, c, b, if c == UPF then cr.annotations else null);
  }

  // ----- The pass -----

  lemma {:induction false} PlanOverConcat(d: Desired, cs: seq<Component>, c: Component)
    ensures PlanOver(d, cs + [c]) == PlanOver(d, cs) + ComponentPlan(d, c)
  {
    var p := ComponentPlan(d, c);
    if cs == [] {
      assert [c][1..] == [] && cs + [c] == [c];
      assert p + [] == p == [] + p;
    } else {
      assert (cs + [c])[1..] == cs[1..] + [c];
      PlanOverConcat(d, cs[1..], c);
      Associate(ComponentPlan(d, cs[0]), PlanOver(d, cs[1..]), p);
    }
  }

  lemma Associate(p: Actions, q: Actions, r: Actions)
    ensures p + (q + r) == (p + q) + r
  {
  }

  lemma {:induction false} RestSkipped(d: Desired, cs: seq<Component>, n: nat, s: Store, t: Store)
    requires n <= |cs| && Partial(PlanOver(d, cs[..n]), s, t)
    ensures Partial(PlanOver(d, cs), s, t)
    decreases |cs| - n
  {
    if n < |cs| {
      assert cs[..n + 1] == cs[..n] + [cs[n]];
      PlanOverConcat(d, cs[..n], cs[n]);
      PartialNothing(ComponentPlan(d, cs[n]), t);
      PartialConcat(PlanOver(d, cs[..n]), ComponentPlan(d, cs[n]), s, t, t);
      RestSkipped(d, cs, n + 1, s, t);
    } else {
      assert cs[..n] == cs;
    }
  }

  // ----- The tests of a whole pass -----

  /** The tests of a component's turn, among those of a pass. */
  predicate Visited(ts: Tests, cs: seq<Component>)
  {
    forall i :: 0 <= i < |ts| ==> ts[i].comp in cs
  }

  lemma TurnKeepsOthers(d: Desired, ts: Tests, turn: Tests, c: Component, o: Component)
    requires AllOf(turn, c) && o != c
    ensures ComponentPlan(Seen(d, ts + turn), o) == ComponentPlan(Seen(d, ts), o)
  {
    AnswersConcat(ts, turn, o);
    NoAnswers(turn, o);
    assert AnswersFor(ts, o) + [] == AnswersFor(ts, o);
    SeenComponent(d, ts, o);
    SeenComponent(d, ts + turn, o);
  }

  lemma TurnIsItsOwn(d: Desired, ts: Tests, turn: Tests, c: Component)
    requires forall i :: 0 <= i < |ts| ==> ts[i].comp != c
    ensures ComponentPlan(Seen(d, ts + turn), c) == ComponentPlan(Seen(d, turn), c)
  {
    AnswersConcat(ts, turn, c);
    NoAnswers(ts, c);
    assert [] + AnswersFor(turn, c) == AnswersFor(turn, c);
    SeenComponent(d, turn, c);
    SeenComponent(d, ts + turn, c);
  }

  /** One more turn: what was done so far and what the turn did make up the plan that all tests so far let
      the pass see. */
  lemma Proceed(d: Desired, cs: seq<Component>, c: Component, ts: Tests, turn: Tests, ok1: bool, ok2: bool, s: Store, t: Store, u: Store)
    requires c !in cs && Visited(ts, cs) && AllOf(turn, c)
    requires Stage(PlanOver(Seen(d, ts), cs), ok1, s, t) && Stage(ComponentPlan(Seen(d, turn), c), ok2, t, u) && (ok2 ==> ok1)
    ensures Stage(PlanOver(Seen(d, ts + turn), cs + [c]), ok2, s, u) && Visited(ts + turn, cs + [c])
  {
    var e := Seen(d, ts + turn);
    forall o | o in cs ensures ComponentPlan(e, o) == ComponentPlan(Seen(d, ts), o) { TurnKeepsOthers(d, ts, turn, c, o); }
    PlanOverAgrees(e, Seen(d, ts), cs);
    TurnIsItsOwn(d, ts, turn, c);
    PlanOverConcat(e, cs, c);
    Then(PlanOver(e, cs), ComponentPlan(e, c), ok1, ok2, s, t, u);
  }

  /** Only UPF reads the user's annotations. */
  lemma DeploymentIgnoresAnnotations(w: World, core: Core, x: map<string, string>, y: map<string, string>, c: Component)
    requires c != UPF
    ensures MainDeployment(w, Resource(core, x), c) == MainDeployment(w, Resource(core, y), c)
  {
  }

  lemma BundleIgnoresAnnotations(w: World, core: Core, x: map<string, string>, y: map<string, string>, c: Component)
    requires c == UPF ==> x == y
    ensures BundleOf(w, Resource(core, x), c) == BundleOf(w, Resource(core, y), c)
  {
    if c != UPF { DeploymentIgnoresAnnotations(w, core, x, y, c); }
  }

  /** What `d` says about one component is what the builder makes of the core and these annotations. */
  ghost predicate Entry(d: Desired, w: World, core: Core, annotations: map<string, string>, c: Component)
  {
    && (c in d.monitored <==> w.crd) && (c in d.bundles <==> Enabled(core, c))
    && (c in d.bundles ==> d.bundles[c] == BundleOf(w, Resource(core, annotations), c))
  }

  lemma EnabledEntry(d: Desired, w: World, core: Core, annotations: map<string, string>, c: Component, b: Bundle, ts: Tests)
    requires Entry(d, w, core, annotations, c) && b == BundleOf(w, Resource(core, annotations), c) && Enabled(core, c)
    ensures var probe := ProbeFor(ts, c);
      ComponentPlan(Seen(d, ts), c) == EnablePlan(CrdSeen(w.crd, probe), d.who, c, BundleSeen(b, probe))
  {
    SeenComponent(d, ts, c);
  }

  lemma DisabledEntry(d: Desired, w: World, core: Core, annotations: map<string, string>, c: Component, ts: Tests)
    requires Entry(d, w, core, annotations, c) && !Enabled(core, c)
    ensures ComponentPlan(Seen(d, ts), c) == DisablePlan(CrdSeen(w.crd, ProbeFor(ts, c)), d.who, c)
  {
    SeenComponent(d, ts, c);
  }

  /** One component: reconciled or torn down. */
  method ReconcileOrDelete(api: ApiServer, cr: Open5GS, c: Component, ghost d: Desired) returns (ok: bool)
    requires d.who == cr.who && Entry(d, api.world, Core(cr.who, cr.spec), Entries(cr.annotations), c)
    modifies api, if c == UPF then cr.annotations else null
    ensures TurnTests(old(api.tests), api.tests, c) && api.failures >= old(api.failures)
    ensures !ok ==> api.failures > old(api.failures) || !AllAnswered(Since(old(api.tests), api.tests))
    ensures Stage(ComponentPlan(Seen(d, Since(old(api.tests), api.tests)), c), ok && api.failures == old(api.failures),
                  old(api.objects), api.objects)
  {
    ghost var tests, core, annotations := api.tests, Core(cr.who, cr.spec), Entries(cr.annotations);
    if On(Fn(cr.spec, c).enabled) {
      ghost var b := BundleOf(api.world, cr.Value(), c);
      ok := ReconcileEnabled(api, cr, c);
      EnabledEntry(d, api.world, core, annotations, c, b, Since(tests, api.tests));
    } else {
      ok := DeleteComponentResources(api, cr.who, c);
      DisabledEntry(d, api.world, core, annotations, c, Since(tests, api.tests));
    }
  }

  lemma TestsExtend(t0: Tests, t1: Tests, t2: Tests)
    requires t0 <= t1 <= t2
    ensures Since(t0, t2) == Since(t0, t1) + Since(t1, t2)
    ensures !AllAnswered(Since(t1, t2)) ==> !AllAnswered(Since(t0, t2))
  {
    if !AllAnswered(Since(t1, t2)) {
      var i :| 0 <= i < |Since(t1, t2)| && !Since(t1, t2)[i].answered;
      assert !Since(t0, t2)[|Since(t0, t1)| + i].answered;
    }
  }

  /** These components had their turns, with these tests. */
  ghost predicate Underway(d: Desired, cs: seq<Component>, before: Tests, now: Tests, flawless: bool, s: Store, t: Store)
  {
    && before <= now && Visited(Since(before, now), cs)
    && Stage(PlanOver(Seen(d, Since(before, now)), cs), flawless, s, t)
  }

  lemma StillUnderway(d: Desired, cs: seq<Component>, c: Component, t0: Tests, t1: Tests, t2: Tests, ok1: bool, ok2: bool,
                      s: Store, t: Store, u: Store)
    requires c !in cs && Underway(d, cs, t0, t1, ok1, s, t) && TurnTests(t1, t2, c)
    requires Stage(ComponentPlan(Seen(d, Since(t1, t2)), c), ok2, t, u) && (ok2 ==> ok1)
    ensures Underway(d, cs + [c], t0, t2, ok2, s, u)
  {
    TestsExtend(t0, t1, t2);
    Proceed(d, cs, c, Since(t0, t1), Since(t1, t2), ok1, ok2, s, t, u);
  }

  /** What the builders find in the CR after earlier turns: only UPF reads its annotations. */
  lemma Described(d: Desired, w: World, core: Core, user: map<string, string>, now: map<string, string>, c: Component)
    requires d == DesiredOf(w, Resource(core, user)) && (c == UPF ==> now == user)
    ensures d.who == core.who && Entry(d, w, core, now, c)
  {
    BundlesOfDesired(w, Resource(core, user), c);
    BundleIgnoresAnnotations(w, core, user, now, c);
  }

  lemma NotYet(cs: seq<Component>, i: nat)
    requires Distinct(cs) && i < |cs|
    ensures cs[i] !in cs[..i] && cs[..i + 1] == cs[..i] + [cs[i]]
  {
  }

  lemma NothingYet(d: Desired, tests: Tests, s: Store)
    ensures Underway(d, [], tests, tests, true, s, s)
  {
    EmptyStage([], s);
    assert Since(tests, tests) == [];
  }

  /** One turn of the loop. */
  method TakeTurn(api: ApiServer, cr: Open5GS, cs: seq<Component>, i: nat, ghost d: Desired,
                  ghost user: map<string, string>, ghost s: Store, ghost tests: Tests, ghost fine: bool)
    returns (ok: bool)
    requires i < |cs| && Distinct(cs) && Underway(d, cs[..i], tests, api.tests, fine, s, api.objects)
    requires d == DesiredOf(api.world, Resource(Core(cr.who, cr.spec), user)) && (cs[i] == UPF ==> Entries(cr.annotations) == user)
    modifies api, if cs[i] == UPF then cr.annotations else null
    ensures old(api.tests) <= api.tests && api.failures >= old(api.failures)
    ensures !ok ==> api.failures > old(api.failures) || !AllAnswered(Since(old(api.tests), api.tests))
    ensures Underway(d, cs[..i + 1], tests, api.tests, ok && fine && api.failures == old(api.failures), s, api.objects)
  {
    ghost var t, t1, failures := api.objects, api.tests, api.failures;
    NotYet(cs, i);
    Described(d, api.world, Core(cr.who, cr.spec), user, Entries(cr.annotations), cs[i]);
    ok := ReconcileOrDelete(api, cr, cs[i], d);
    StillUnderway(d, cs[..i], cs[i], tests, t1, api.tests, fine, ok && fine && api.failures == failures, s, t, api.objects);
  }

  /** What the turns of these components achieved; `flawless` tells whether no call but tests failed. */
  ghost predicate Outcome(d: Desired, cs: seq<Component>, before: Tests, now: Tests, ok: bool, flawless: bool, s: Store, t: Store)
  {
    && before <= now && Stage(PlanOver(Seen(d, Since(before, now)), cs), ok && flawless, s, t)
    && (!ok ==> !flawless || !AllAnswered(Since(before, now)))
  }

  lemma CutShort(d: Desired, cs: seq<Component>, n: nat, t0: Tests, t1: Tests, t2: Tests, fine: bool, flawless: bool, s: Store, t: Store)
    requires n <= |cs| && t0 <= t1 <= t2 && Underway(d, cs[..n], t0, t2, fine, s, t)
    requires flawless ==> !AllAnswered(Since(t1, t2))
    ensures Outcome(d, cs, t0, t2, false, flawless, s, t)
  {
    TestsExtend(t0, t1, t2);
    RestSkipped(Seen(d, Since(t0, t2)), cs, n, s, t);
  }

  lemma AllVisited(d: Desired, cs: seq<Component>, t0: Tests, t1: Tests, flawless: bool, s: Store, t: Store)
    requires Underway(d, cs[..|cs|], t0, t1, flawless, s, t)
    ensures Outcome(d, cs, t0, t1, true, flawless, s, t)
  {
    assert cs[..|cs|] == cs;
  }

  /** The components, one after the other; the first error ends the pass. */
  method ReconcileAll(api: ApiServer, cr: Open5GS, cs: seq<Component>, ghost d: Desired) returns (ok: bool)
    requires d == DesiredOf(api.world, cr.Value()) && Distinct(cs)
    modifies api, cr.annotations
    ensures Outcome(d, cs, old(api.tests), api.tests, ok, api.failures == old(api.failures), old(api.objects), api.objects)
  {
    ghost var user, s, failures, tests := Entries(cr.annotations), api.objects, api.failures, api.tests;
    NothingYet(d, tests, s);
    assert cs[..0] == [];
    for i := 0 to |cs|
      invariant UPF in cs[..i] || Entries(cr.annotations) == user
      invariant api.failures >= failures
      invariant Underway(d, cs[..i], tests, api.tests, api.failures == failures, s, api.objects)
    {
      ghost var t1 := api.tests;
      ok := TakeTurn(api, cr, cs, i, d, user, s, tests, api.failures == failures);
      if !ok {
        CutShort(d, cs, i + 1, tests, t1, api.tests, false, api.failures == failures, s, api.objects);
        return false;
      }
    }
    AllVisited(d, cs, tests, api.tests, api.failures == failures, s, api.objects);
    ok := true;
  }

  /** What a pass with these tests achieved. The plan is carried out as the pass saw it, in full if the pass
      reports success and nothing but tests failed; it stays within the wanted plan unless a test slipped;
      and a pass without failures carries out the wanted plan. */
  ghost predicate PassDone(d: Desired, ts: Tests, ok: bool, flawless: bool, s: Store, t: Store)
  {
    && Stage(PassPlan(Seen(d, ts)), ok && flawless, s, t)
    && ((forall c :: !Slipped(d, ts, c)) ==> Partial(PassPlan(d), s, t))
    && (flawless && AllAnswered(ts) ==> ok && Completed(PassPlan(d), s, t))
  }

  lemma PassIsDone(d: Desired, ts: Tests, ok: bool, flawless: bool, s: Store, t: Store)
    requires Stage(PassPlan(Seen(d, ts)), ok && flawless, s, t) && (!ok ==> !flawless || !AllAnswered(ts))
    ensures PassDone(d, ts, ok, flawless, s, t)
  {
    if forall c :: !Slipped(d, ts, c) { SeenPassIsPart(d, ts, s, t); }
    if AllAnswered(ts) { AnsweredSeesAll(d, ts); }
  }

  /** Reconcile, after the CR was read; a CR that is gone is not an error. */
  method ReconcilePass(api: ApiServer, cr: Open5GS?) returns (ok: bool)
    modifies api, cr, if cr != null then cr.annotations else null
    ensures old(api.tests) <= api.tests
    ensures cr == null ==> ok && api.objects == old(api.objects)
    ensures cr != null ==>
      PassDone(DesiredOf(api.world, old(WithDefaults(cr.Value()))), Since(old(api.tests), api.tests), ok,
               api.failures == old(api.failures), old(api.objects), api.objects)
  {
    if cr == null {
      return true;
    }
    ghost var r, s, tests, failures := WithDefaults(cr.Value()), api.objects, api.tests, api.failures;
    cr.SetDefaultValues();
    OrderDistinct();
    ok := ReconcileAll(api, cr, Order(), DesiredOf(api.world, r));
    PassIsDone(DesiredOf(api.world, r), Since(tests, api.tests), ok, api.failures == failures, s, api.objects);
  }

  // ----- A single failed test -----

  lemma GoodLosesMonitor(who: Who, c: Component, b: Bundle, x: Item, s: Store, t: Store)
    requires GoodBundle(who, c, b) && b.monitor == Some(x) && x.key in s && Labelled(s[x.key], who.name, c)
    requires Completed(EnablePlan(true, who, c, BundleSeen(b, Slips)), s, t)
    ensures x.key !in t
  {
    MonitorStageAt(true, who, c, b, Slips, x, s[x.key]);
    EnablePlanAt(true, who, c, b.(monitor := None), x.key, At(s, x.key));
    assert At(t, x.key) == None;
  }

  lemma EnabledLosesMonitor(w: World, r: Resource, c: Component, s: Store, t: Store)
    requires MonitorOf(r.core, c) == Some(CreateMonitor(r.core.who, c)) && CreateMonitor(r.core.who, c).key in s
    requires Labelled(s[CreateMonitor(r.core.who, c).key], r.core.who.name, c)
    requires Completed(EnablePlan(true, r.core.who, c, BundleSeen(BundleOf(w, r, c), Slips)), s, t)
    ensures CreateMonitor(r.core.who, c).key !in t
  {
    BundleIsGood(w, r, c);
    BundleParts(w, r, c);
    GoodLosesMonitor(r.core.who, c, BundleOf(w, r, c), CreateMonitor(r.core.who, c), s, t);
  }

  lemma OnlyTheFirst(outage: nat -> bool)
    requires outage == (n => n == 0)
    ensures OnlyNextFails(outage, 0)
  {
  }

  /** The shortest outage that shows it: of all calls only the very first one fails, the test for the CRD
      that reconcileAMF (or SMF, or PCF) starts with. The pass reports success and has deleted the wanted
      ServiceMonitor. */
  method LoseMonitor(world: World, cr: Open5GS, c: Component, objects: Store) returns (ok: bool, api: ApiServer)
    requires world.crd && HasMetrics(c) && c != UPF && On(Fn(cr.spec, c).serviceMonitor)
    requires CreateMonitor(cr.who, c).key in objects && Labelled(objects[CreateMonitor(cr.who, c).key], cr.who.name, c)
    ensures fresh(api) && ok && api.failures == 0
    ensures CreateMonitor(cr.who, c).key !in api.objects
  {
    api := new ApiServer(world, n => n == 0, objects);
    ghost var r := cr.Value();
    OnlyTheFirst(api.outage);
    ok := ReconcileEnabled(api, cr, c);
    EnabledLosesMonitor(world, r, c, objects, api.objects);
  }
}
