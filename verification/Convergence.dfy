/** Whole runs of the Open5GS reconciler: retries after failures, several instances, interleavings. */
module Convergence {
  import opened Text
  import opened Model
  import opened Names
  import opened Resources
  import opened Compare
  import opened Plan
  import opened Coherence
  import opened PlanFacts
  import opened Interleave

  // ----- Plans are balanced -----

  lemma {:induction false} EnsuresBalanced(who: Who, c: Component, xs: seq<Item>, open: Option<Action>, q: Actions)
    requires Balanced(q, open)
    ensures Balanced(EnsureAll(who, c, xs) + q, open)
  {
    if xs == [] {
      assert EnsureAll(who, c, xs) + q == q;
    } else {
      EnsuresBalanced(who, c, xs[1..], open, q);
      assert (EnsureAll(who, c, xs) + q)[1..] == EnsureAll(who, c, xs[1..]) + q;
    }
  }

  lemma ServicesBalanced(who: Who, c: Component, xs: seq<Item>)
    ensures Balanced(ServicePlan(who, c, xs), None)
  {
    var mode := ByLabel(NamesOf(xs));
    var snap, sweep := Action(who, c, Snap(Service, mode)), Action(who, c, Sweep(Service, mode));
    var es := EnsureAll(who, c, xs);
    EnsuresBalanced(who, c, xs, None, []);
    assert es + [] == es;
    assert ([sweep] + es)[1..] == es;
    EnsuresBalanced(who, c, xs, Some(snap), [sweep] + es);
    assert ServicePlan(who, c, xs) == [snap] + (es + ([sweep] + es));
    assert ([snap] + (es + ([sweep] + es)))[1..] == es + ([sweep] + es);
  }

  lemma SmallPlansBalanced(who: Who, c: Component, b: Bundle, kind: Kind, x: Option<Item>, mode: Mode)
    ensures Balanced(ConfigPlan(who, c, b), None)
    ensures Balanced(EnsureOpt(who, c, x), None)
    ensures Balanced(Purge(who, c, kind, mode), None)
    ensures Balanced(EnsureOrPurge(who, c, kind, x), None)
  {
    var pair := [EnsureItem(who, c, b.config), EnsureItem(who, c, b.deployment)];
    assert pair[1..] == [EnsureItem(who, c, b.deployment)] && pair[1..][1..] == [];
    assert [EnsureItem(who, c, b.config)][1..] == [];
    assert Balanced(pair, None);
    assert Purge(who, c, kind, mode)[1..][1..] == [];
    if b.extra.Some? {
      BalancedConcat(EnsureOpt(who, c, b.extra), pair, None);
    } else {
      assert [] + pair == pair;
    }
  }

  lemma EnableBalanced(crd: bool, who: Who, c: Component, b: Bundle)
    ensures Balanced(EnablePlan(crd, who, c, b), None)
  {
    SmallPlansBalanced(who, c, b, ServiceMonitor, b.monitor, ByPrefix);
    SmallPlansBalanced(who, c, b, ServiceAccount, b.account, ByPrefix);
    SmallPlansBalanced(who, c, b, Claim, b.claim, ByPrefix);
    ServicesBalanced(who, c, b.services);
    var p1, p2, p3, p4, p5 := ConfigPlan(who, c, b), ServicePlan(who, c, b.services), MonitorPlan(crd, who, c, b),
      EnsureOpt(who, c, b.claim), EnsureOrPurge(who, c, ServiceAccount, b.account);
    BalancedConcat(p1, p2, None);
    BalancedConcat(p1 + p2, p3, None);
    BalancedConcat(p1 + p2 + p3, p4, None);
    BalancedConcat(p1 + p2 + p3 + p4, p5, None);
  }

  lemma DropsBalanced(who: Who, c: Component, k1: Kind, k2: Kind)
    ensures Balanced([Drop(who, c, k1)], None)
    ensures Balanced([Drop(who, c, k1), Drop(who, c, k2)], None)
  {
    assert [Drop(who, c, k1), Drop(who, c, k2)][1..] == [Drop(who, c, k2)];
    assert [Drop(who, c, k2)][1..] == [] && [Drop(who, c, k1)][1..] == [];
  }

  lemma DisableBalanced(crd: bool, who: Who, c: Component)
    ensures Balanced(DisablePlan(crd, who, c), None)
  {
    DropsBalanced(who, c, ConfigMap, Deployment);
    DropsBalanced(who, c, Claim, ServiceAccount);
    DropsBalanced(who, c, ServiceMonitor, ServiceMonitor);
    assert Purge(who, c, Service, ByPrefix)[1..][1..] == [];
    var p1, p2, p4 := [Drop(who, c, ConfigMap), Drop(who, c, Deployment)], Purge(who, c, Service, ByPrefix),
      [Drop(who, c, Claim), Drop(who, c, ServiceAccount)];
    var p3 := if crd then [Drop(who, c, ServiceMonitor)] else [];
    BalancedConcat(p1, p2, None);
    BalancedConcat(p1 + p2, p3, None);
    BalancedConcat(p1 + p2 + p3, p4, None);
  }

  lemma {:induction false} PassBalanced(d: Desired, cs: seq<Component>)
    ensures Balanced(PlanOver(d, cs), None)
  {
    if cs != [] {
      if cs[0] in d.bundles {
        EnableBalanced(cs[0] in d.monitored, d.who, cs[0], d.bundles[cs[0]]);
      } else {
        DisableBalanced(cs[0] in d.monitored, d.who, cs[0]);
      }
      PassBalanced(d, cs[1..]);
      BalancedConcat(ComponentPlan(d, cs[0]), PlanOver(d, cs[1..]), None);
    }
  }

  // ----- Several instances -----

  function Plans(ds: seq<Desired>): (ps: seq<Actions>)
    ensures |ps| == |ds| && forall i :: 0 <= i < |ds| ==> ps[i] == PassPlan(ds[i])
  {
    if ds == [] then [] else [PassPlan(ds[0])] + Plans(ds[1..])
  }

  function AllActions(ps: seq<Actions>): Actions
  {
    if ps == [] then [] else ps[0] + AllActions(ps[1..])
  }

  lemma {:induction false} InAllActions(ps: seq<Actions>, a: Action)
    ensures a in AllActions(ps) <==> exists i :: 0 <= i < |ps| && a in ps[i]
  {
    if ps != [] {
      InAllActions(ps[1..], a);
      if a in AllActions(ps[1..]) {
        var i :| 0 <= i < |ps[1..]| && a in ps[1..][i];
        assert a in ps[i + 1];
      }
      if exists i :: 0 <= i < |ps| && a in ps[i] {
        var i :| 0 <= i < |ps| && a in ps[i];
        if i > 0 { assert a in ps[1..][i - 1]; }
      }
    }
  }

  /** Different instances, each with the desired state that its spec generates. */
  ghost predicate Instances(crs: set<Who>, ds: seq<Desired>)
  {
    && ValidCrs(crs)
    && (forall i :: 0 <= i < |ds| ==> ds[i].who in crs && GoodDesired(ds[i]))
    && (forall i, j :: 0 <= i < |ds| && 0 <= j < |ds| && ds[i].who == ds[j].who ==> i == j)
  }

  function Whos(ds: seq<Desired>): seq<Who>
  {
    seq(|ds|, i requires 0 <= i < |ds| => ds[i].who)
  }

  ghost predicate OwnedPlan(crs: set<Who>, who: Who, p: Actions)
  {
    who in crs && Coherent(crs, p) && Balanced(p, None) && forall a :: a in p ==> a.who == who
  }

  lemma PassOwned(crs: set<Who>, d: Desired)
    requires d.who in crs && GoodDesired(d)
    ensures OwnedPlan(crs, d.who, PassPlan(d))
  {
    PassCoherent(crs, d);
    PassBalanced(d, Order());
    forall a | a in PassPlan(d) ensures a.who == d.who { InPlanOver(d, Order(), a); }
  }

  lemma UnionSetting(crs: set<Who>, whos: seq<Who>, ps: seq<Actions>)
    requires ValidCrs(crs) && |whos| == |ps|
    requires forall i :: 0 <= i < |ps| ==> OwnedPlan(crs, whos[i], ps[i])
    requires forall i, j :: 0 <= i < |whos| && 0 <= j < |whos| && whos[i] == whos[j] ==> i == j
    ensures Setting(crs, whos, ps, AllActions(ps))
  {
    var all := AllActions(ps);
    forall a ensures a in all <==> exists i :: 0 <= i < |ps| && a in ps[i] { InAllActions(ps, a); }
    forall i | 0 <= i < |ps| ensures Balanced(ps[i], None) { assert OwnedPlan(crs, whos[i], ps[i]); }
    forall i, a | 0 <= i < |ps| && a in ps[i] ensures a in all && a.who == whos[i] {
      assert OwnedPlan(crs, whos[i], ps[i]);
    }
    forall a | a in all ensures a.who in crs && Disciplined(a) {
      var i :| 0 <= i < |ps| && a in ps[i];
      assert OwnedPlan(crs, whos[i], ps[i]);
    }
    forall a, b | a in all && b in all && SameOwner(a, b) ensures Compatible(a, b) {
      var i :| 0 <= i < |ps| && a in ps[i];
      var j :| 0 <= j < |ps| && b in ps[j];
      assert OwnedPlan(crs, whos[i], ps[i]) && OwnedPlan(crs, whos[j], ps[j]);
    }
  }

  lemma InstancesCoherent(crs: set<Who>, ds: seq<Desired>)
    requires Instances(crs, ds)
    ensures Setting(crs, Whos(ds), Plans(ds), AllActions(Plans(ds)))
  {
    forall i | 0 <= i < |ds| ensures OwnedPlan(crs, Whos(ds)[i], Plans(ds)[i]) { PassOwned(crs, ds[i]); }
    UnionSetting(crs, Whos(ds), Plans(ds));
  }

  /** Any number of instances in one cluster, their API calls interleaved in any way, calls failing and
      passes cut off at any point: once each worker has completed a pass, the cluster is the one that
      one uninterrupted pass of each instance, in turn, makes of the initial cluster. */
  lemma InterleavedPassesConverge(crs: set<Who>, ds: seq<Desired>, s0: Store, es: seq<Event>)
    requires Instances(crs, ds) && WFStore(crs, s0)
    requires Finished(Plans(ds), Run(Plans(ds), Start(s0, |ds|), es))
    ensures var s := Run(Plans(ds), Start(s0, |ds|), es).store;
      Completed(AllActions(Plans(ds)), s0, s) && WFStore(crs, s)
  {
    InstancesCoherent(crs, ds);
    Converges(crs, Whos(ds), Plans(ds), AllActions(Plans(ds)), s0, es);
  }

  /** The outcome does not depend on the schedule. */
  lemma ScheduleIrrelevant(crs: set<Who>, ds: seq<Desired>, s0: Store, es: seq<Event>, fs: seq<Event>)
    requires Instances(crs, ds) && WFStore(crs, s0)
    requires Finished(Plans(ds), Run(Plans(ds), Start(s0, |ds|), es))
    requires Finished(Plans(ds), Run(Plans(ds), Start(s0, |ds|), fs))
    ensures Run(Plans(ds), Start(s0, |ds|), es).store == Run(Plans(ds), Start(s0, |ds|), fs).store
  {
    InterleavedPassesConverge(crs, ds, s0, es);
    InterleavedPassesConverge(crs, ds, s0, fs);
    CompletedUnique(AllActions(Plans(ds)), s0, Run(Plans(ds), Start(s0, |ds|), es).store,
                    Run(Plans(ds), Start(s0, |ds|), fs).store);
  }

  /** A pass without interference and failures is one run of this machine with a single worker: what the
      reconciler leaves is what the machine leaves. */
  lemma PassIsARun(d: Desired, s: Store, t: Store) returns (es: seq<Event>)
    requires GoodDesired(d) && LabelledWell(s) && Completed(PassPlan(d), s, t)
    ensures var y := Run(Plans([d]), Start(s, 1), es); Finished(Plans([d]), y) && y.store == t
  {
    var p := PassPlan(d);
    AloneWF(d.who, s);
    assert Plans([d]) == [p];
    assert AllActions([p]) == p + AllActions([p][1..]) && [p][1..] == [] && p + [] == p;
    es := AlwaysFinishable(Plans([d]), Start(s, 1));
    InterleavedPassesConverge({d.who}, [d], s, es);
    CompletedUnique(p, s, t, Run(Plans([d]), Start(s, 1), es).store);
  }

  // ----- Crash and retry -----

  /** From any cluster `s` whose labels agree with its names: let a pass be cut short, or let any of its
      calls fail, leaving `t`. A complete pass over `t` then gives the cluster that a complete pass over
      `s` gives. */
  lemma CrashAndRetry(d: Desired, s: Store, t: Store, u: Store, v: Store)
    requires GoodDesired(d) && LabelledWell(s)
    requires Partial(PassPlan(d), s, t) && Completed(PassPlan(d), t, u) && Completed(PassPlan(d), s, v)
    ensures u == v && LabelledWell(t) && LabelledWell(u)
  {
    var crs, p := {d.who}, PassPlan(d);
    AloneWF(d.who, s);
    PassCoherent(crs, d);
    forall k ensures At(u, k) == At(v, k) && WF(crs, k, At(t, k)) && WF(crs, k, At(u, k)) {
      assert WF(crs, k, At(s, k)) && Reachable(p, k, At(s, k), At(t, k));
      AbsorbReachable(crs, p, p, k, At(s, k), At(t, k));
      EffectsKeepWF(crs, p, k, At(t, k));
    }
    AloneWF(d.who, t);
    AloneWF(d.who, u);
    StoresEqual(u, v);
  }

  /** A second pass over the outcome of a pass changes nothing. */
  lemma PassIsIdempotent(d: Desired, s: Store, t: Store, u: Store)
    requires GoodDesired(d) && LabelledWell(s)
    requires Completed(PassPlan(d), s, t) && Completed(PassPlan(d), t, u)
    ensures u == t
  {
    CompletedIsPartial(PassPlan(d), s, t);
    CrashAndRetry(d, s, t, u, t);
  }

  // ----- Isolation -----

  /** The object is out of a CR's reach: named for another instance, and, if it is a Service that the CR
      owns, for another of the CRs. */
  ghost predicate OfOther(crs: set<Who>, who: Who, k: Key, slot: Slot)
  {
    && NameOwner(k).Some? && (k.ns != who.ns || NameOwner(k).value.inst != who.name)
    && (k.kind == Service && slot.Some? && HasOwner(slot.value, who.uid) ==> Claimed(crs, k))
  }

  lemma OtherIsForeign(crs: set<Who>, a: Action, k: Key, slot: Slot)
    requires ValidCrs(crs) && a.who in crs && Disciplined(a) && WF(crs, k, slot) && OfOther(crs, a.who, k, slot)
    ensures Effect(a, k, slot) == slot
  {
    if Claimed(crs, k) {
      Foreign(crs, a, k, slot);
    } else if a.op.Sweep? && a.op.mode.ByLabel? && slot.Some? {
      LabelledMeansOwner(k, slot.value, a.who.name, a.comp);
    }
  }

  /** A pass of one CR neither changes nor depends on what is named for another instance. */
  lemma {:induction false} OthersUntouched(crs: set<Who>, d: Desired, k: Key, slot: Slot)
    requires ValidCrs(crs) && d.who in crs && GoodDesired(d) && WF(crs, k, slot) && OfOther(crs, d.who, k, slot)
    ensures Effects(PassPlan(d), k, slot) == slot
  {
    PassCoherent(crs, d);
    forall a | a in PassPlan(d) ensures Effect(a, k, slot) == slot {
      InPlanOver(d, Order(), a);
      OtherIsForeign(crs, a, k, slot);
    }
    FixedEffects(PassPlan(d), k, slot);
  }

  lemma PlansOfTwoCommute(crs: set<Who>, v: Who, p: Actions, w: Who, q: Actions, k: Key, slot: Slot)
    requires ValidCrs(crs) && OwnedPlan(crs, v, p) && OwnedPlan(crs, w, q) && v != w && WF(crs, k, slot)
    ensures Effects(q, k, Effects(p, k, slot)) == Effects(p, k, Effects(q, k, slot))
  {
    var ps := [p, q];
    UnionSetting(crs, [v, w], ps);
    assert forall a :: a in p ==> a in ps[0];
    assert forall a :: a in q ==> a in ps[1];
    SwapPlans(crs, AllActions(ps), p, q, k, slot);
  }

  /** Reconciling A then B gives the same cluster as B then A. */
  lemma InstancesCommute(crs: set<Who>, a: Desired, b: Desired, s: Store, sa: Store, sab: Store, sb: Store, sba: Store)
    requires ValidCrs(crs) && a.who in crs && b.who in crs && a.who != b.who && GoodDesired(a) && GoodDesired(b)
    requires WFStore(crs, s)
    requires Completed(PassPlan(a), s, sa) && Completed(PassPlan(b), sa, sab)
    requires Completed(PassPlan(b), s, sb) && Completed(PassPlan(a), sb, sba)
    ensures sab == sba
  {
    PassOwned(crs, a);
    PassOwned(crs, b);
    var p, q := PassPlan(a), PassPlan(b);
    forall k ensures At(sab, k) == At(sba, k) {
      assert WF(crs, k, At(s, k));
      PlansOfTwoCommute(crs, a.who, p, b.who, q, k, At(s, k));
      assert At(sa, k) == Effects(p, k, At(s, k)) && At(sb, k) == Effects(q, k, At(s, k));
    }
    StoresEqual(sab, sba);
  }

  lemma DistinctTail(cs: seq<Component>)
    requires Distinct(cs) && cs != []
    ensures Distinct(cs[1..]) && cs[0] !in cs[1..]
  {
    var rest := cs[1..];
    forall i, j | 0 <= i < |rest| && 0 <= j < |rest| && rest[i] == rest[j] ensures i == j {
      assert cs[i + 1] == cs[j + 1];
    }
    assert forall j :: 0 <= j < |rest| ==> rest[j] == cs[j + 1] && cs[j + 1] != cs[0];
  }

  /** At the names of one component only that component's plan matters. */
  lemma {:induction false} Localise(crs: set<Who>, d: Desired, cs: seq<Component>, c: Component, k: Key, slot: Slot)
    requires ValidCrs(crs) && d.who in crs && GoodDesired(d) && WF(crs, k, slot)
    requires NameOwner(k) == Some(Owner(d.who.ns, d.who.name, c))
    requires Distinct(cs)
    ensures Effects(PlanOver(d, cs), k, slot) == if c in cs then Effects(ComponentPlan(d, c), k, slot) else slot
  {
    if cs != [] {
      var p, rest := ComponentPlan(d, cs[0]), cs[1..];
      EffectsConcat(p, PlanOver(d, rest), k, slot);
      DistinctTail(cs);
      forall a | a in p ensures a.who in crs && a.comp == cs[0] && Disciplined(a) {
        InComponentPlan(d, cs[0], a);
        PassDisciplined(d, a);
      }
      EffectsKeepWF(crs, p, k, slot);
      Localise(crs, d, rest, c, k, Effects(p, k, slot));
      if cs[0] == c {
      } else {
        forall a | a in p ensures Effect(a, k, slot) == slot { Foreign(crs, a, k, slot); }
        FixedEffects(p, k, slot);
      }
    }
  }

  /** What a whole pass makes of an object named for component `c`. */
  lemma PassAt(crs: set<Who>, d: Desired, c: Component, k: Key, slot: Slot)
    requires ValidCrs(crs) && d.who in crs && GoodDesired(d) && WF(crs, k, slot)
    requires NameOwner(k) == Some(Owner(d.who.ns, d.who.name, c))
    ensures Effects(PassPlan(d), k, slot) == Effects(ComponentPlan(d, c), k, slot)
  {
    OrderIsComplete(c);
    OrderDistinct();
    Localise(crs, d, Order(), c, k, slot);
  }
}
