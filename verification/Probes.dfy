/** Tests for the ServiceMonitor CRD: what a pass does when some of them fail. */
module Probes {
  import opened Text
  import opened Model
  import opened Names
  import opened Resources
  import opened Compare
  import opened Plan
  import opened Coherence
  import opened PlanFacts
  import opened Outcomes
  import opened Convergence

  /** A test made at a component's turn; one that is not answered failed with an error. */
  datatype Test = Test(comp: Component, answered: bool)

  type Tests = seq<Test>

  /** What a component's turn makes of its tests. The code takes an error for "not installed". A component
      with a monitor makes two tests, one when it collects the wanted objects and one at the monitor stage. */
  datatype Probe =
    | Works
    | Misses    // the last test failed: the monitor stage does nothing
    | Slips     // the first test failed and the second did not: no monitor seems to be wanted

  function AnswersFor(ts: Tests, c: Component): seq<bool>
  {
    if ts == [] then [] else (if ts[0].comp == c then [ts[0].answered] else []) + AnswersFor(ts[1..], c)
  }

  function ProbeOf(answers: seq<bool>): Probe
  {
    if answers == [] then Works
    else if !answers[|answers| - 1] then Misses
    else if !answers[0] then Slips else Works
  }

  function ProbeFor(ts: Tests, c: Component): Probe
  {
    ProbeOf(AnswersFor(ts, c))
  }

  function CrdSeen(crd: bool, probe: Probe): bool
  {
    crd && !probe.Misses?
  }

  function BundleSeen(b: Bundle, probe: Probe): Bundle
  {
    if probe.Slips? then b.(monitor := None) else b
  }

  /** The desired state as a pass with these tests sees it. */
  function Seen(d: Desired, ts: Tests): Desired
  {
    Desired(d.who, set c | c in d.monitored && CrdSeen(true, ProbeFor(ts, c)),
            map c | c in d.bundles :: BundleSeen(d.bundles[c], ProbeFor(ts, c)))
  }

  /** What a component's turn carries out, given what it saw of the CRD. */
  function ComponentSeen(d: Desired, probe: Probe, c: Component): Actions
  {
    var crd := CrdSeen(c in d.monitored, probe);
    if c in d.bundles then EnablePlan(crd, d.who, c, BundleSeen(d.bundles[c], probe)) else DisablePlan(crd, d.who, c)
  }

  lemma SeenComponent(d: Desired, ts: Tests, c: Component)
    ensures ComponentPlan(Seen(d, ts), c) == ComponentSeen(d, ProbeFor(ts, c), c)
  {
  }

  predicate AllAnswered(ts: Tests)
  {
    forall i :: 0 <= i < |ts| ==> ts[i].answered
  }

  /** A component whose wanted monitor a pass with these tests takes for unwanted. */
  predicate Slipped(d: Desired, ts: Tests, c: Component)
  {
    c in d.bundles && c in d.monitored && d.bundles[c].monitor.Some? && ProbeFor(ts, c).Slips?
  }

  // ----- Tests of several components -----

  lemma {:induction false} AnswersConcat(a: Tests, b: Tests, c: Component)
    ensures AnswersFor(a + b, c) == AnswersFor(a, c) + AnswersFor(b, c)
  {
    if a == [] {
      assert a + b == b;
    } else {
      assert (a + b)[1..] == a[1..] + b;
      AnswersConcat(a[1..], b, c);
      var one := if a[0].comp == c then [a[0].answered] else [];
      assert AnswersFor(a + b, c) == one + AnswersFor(a[1..] + b, c);
      assert one + (AnswersFor(a[1..], c) + AnswersFor(b, c)) == (one + AnswersFor(a[1..], c)) + AnswersFor(b, c);
    }
  }

  predicate AllOf(ts: Tests, c: Component)
  {
    forall i :: 0 <= i < |ts| ==> ts[i].comp == c
  }

  lemma {:induction false} NoAnswers(ts: Tests, c: Component)
    requires forall i :: 0 <= i < |ts| ==> ts[i].comp != c
    ensures AnswersFor(ts, c) == []
  {
    if ts != [] {
      forall i | 0 <= i < |ts[1..]| ensures ts[1..][i].comp != c { assert ts[i + 1].comp != c; }
      NoAnswers(ts[1..], c);
    }
  }

  lemma {:induction false} AnswersTrue(ts: Tests, c: Component)
    requires AllAnswered(ts)
    ensures forall i :: 0 <= i < |AnswersFor(ts, c)| ==> AnswersFor(ts, c)[i]
  {
    if ts != [] {
      forall i | 0 <= i < |ts[1..]| ensures ts[1..][i].answered { assert ts[i + 1].answered; }
      AnswersTrue(ts[1..], c);
    }
  }

  /** With all tests answered a pass sees the desired state as it is. */
  lemma AnsweredSeesAll(d: Desired, ts: Tests)
    requires AllAnswered(ts)
    ensures Seen(d, ts) == d
  {
    forall c ensures ProbeFor(ts, c) == Works { AnswersTrue(ts, c); }
  }

  /** A pass that went through, although some of its tests may have failed. */
  ghost predicate Succeeded(d: Desired, s: Store, t: Store)
  {
    exists ts: Tests :: Completed(PassPlan(Seen(d, ts)), s, t)
  }

  lemma SeenIsGood(d: Desired, ts: Tests)
    requires GoodDesired(d)
    ensures GoodDesired(Seen(d, ts))
  {
    forall c | c in d.bundles ensures GoodBundle(d.who, c, Seen(d, ts).bundles[c]) {
      assert GoodBundle(d.who, c, d.bundles[c]);
    }
  }

  lemma {:induction false} PlanOverAgrees(d: Desired, e: Desired, cs: seq<Component>)
    requires forall c :: c in cs ==> ComponentPlan(d, c) == ComponentPlan(e, c)
    ensures PlanOver(d, cs) == PlanOver(e, cs)
  {
    if cs != [] {
      assert cs[0] in cs;
      PlanOverAgrees(d, e, cs[1..]);
    }
  }

  // ----- A failed test that only hides the CRD leaves part of the plan undone -----

  lemma {:induction false} ReachableSplit(p: Actions, q: Actions, k: Key, a: Slot, c: Slot) returns (b: Slot)
    requires Reachable(p + q, k, a, c)
    ensures Reachable(p, k, a, b) && Reachable(q, k, b, c)
  {
    if p == [] {
      assert p + q == q;
      b := a;
    } else {
      assert (p + q)[1..] == p[1..] + q;
      if Reachable(p[1..] + q, k, a, c) {
        b := ReachableSplit(p[1..], q, k, a, c);
      } else {
        b := ReachableSplit(p[1..], q, k, Effect(p[0], k, a), c);
      }
    }
  }

  /** `p` is `q` without some part of it. */
  ghost predicate PartOf(p: Actions, q: Actions)
  {
    forall k, a, b :: Reachable(p, k, a, b) ==> Reachable(q, k, a, b)
  }

  lemma PartOfConcat(p: Actions, p': Actions, q: Actions, q': Actions)
    requires PartOf(p, p') && PartOf(q, q')
    ensures PartOf(p + q, p' + q')
  {
    forall k, a, c | Reachable(p + q, k, a, c) ensures Reachable(p' + q', k, a, c) {
      var b := ReachableSplit(p, q, k, a, c);
      ReachableConcat(p', q', k, a, b, c);
    }
  }

  lemma NothingIsPart(q: Actions)
    ensures PartOf([], q)
  {
    forall k, a, b | Reachable([], k, a, b) ensures Reachable(q, k, a, b) { NothingReachable(q, k, a); }
  }

  lemma HiddenEnableIsPart(who: Who, c: Component, b: Bundle)
    ensures PartOf(EnablePlan(false, who, c, b), EnablePlan(true, who, c, b))
  {
    var p, m, q, r := ConfigPlan(who, c, b) + ServicePlan(who, c, b.services), MonitorPlan(true, who, c, b),
      EnsureOpt(who, c, b.claim), EnsureOrPurge(who, c, ServiceAccount, b.account);
    NothingIsPart(m);
    PartOfConcat(p, p, [], m);
    PartOfConcat(p + [], p + m, q, q);
    PartOfConcat(p + [] + q, p + m + q, r, r);
  }

  lemma HiddenDisableIsPart(who: Who, c: Component)
    ensures PartOf(DisablePlan(false, who, c), DisablePlan(true, who, c))
  {
    var p, m, q := [Drop(who, c, ConfigMap), Drop(who, c, Deployment)] + Purge(who, c, Service, ByPrefix),
      [Drop(who, c, ServiceMonitor)], [Drop(who, c, Claim), Drop(who, c, ServiceAccount)];
    NothingIsPart(m);
    PartOfConcat(p, p, [], m);
    PartOfConcat(p + [], p + m, q, q);
  }

  lemma SeenComponentIsPart(d: Desired, ts: Tests, c: Component)
    requires !Slipped(d, ts, c)
    ensures PartOf(ComponentPlan(Seen(d, ts), c), ComponentPlan(d, c))
  {
    if c in d.bundles {
      HiddenEnableIsPart(d.who, c, d.bundles[c]);
      var b := d.bundles[c];
      assert b.monitor.None? ==> b.(monitor := None) == b;
      UnmonitoredPlan(d.who, c, b, ProbeFor(ts, c));
    } else {
      HiddenDisableIsPart(d.who, c);
    }
  }

  lemma UnmonitoredPlan(who: Who, c: Component, b: Bundle, probe: Probe)
    ensures EnablePlan(false, who, c, BundleSeen(b, probe)) == EnablePlan(false, who, c, b)
  {
  }

  lemma {:induction false} SeenIsPart(d: Desired, ts: Tests, cs: seq<Component>)
    requires forall c :: c in cs ==> !Slipped(d, ts, c)
    ensures PartOf(PlanOver(Seen(d, ts), cs), PlanOver(d, cs))
  {
    if cs == [] {
      NothingIsPart([]);
    } else {
      assert cs[0] in cs;
      SeenComponentIsPart(d, ts, cs[0]);
      SeenIsPart(d, ts, cs[1..]);
      PartOfConcat(ComponentPlan(Seen(d, ts), cs[0]), ComponentPlan(d, cs[0]), PlanOver(Seen(d, ts), cs[1..]),
                   PlanOver(d, cs[1..]));
    }
  }

  /** A pass does a part of its plan, whatever tests fail, unless one of them slips. */
  lemma SeenPassIsPart(d: Desired, ts: Tests, s: Store, t: Store)
    requires forall c :: !Slipped(d, ts, c)
    requires Partial(PassPlan(Seen(d, ts)), s, t)
    ensures Partial(PassPlan(d), s, t)
  {
    SeenIsPart(d, ts, Order());
    forall k ensures Reachable(PassPlan(d), k, At(s, k), At(t, k)) {
      assert Reachable(PassPlan(Seen(d, ts)), k, At(s, k), At(t, k));
    }
  }

  // ----- A slip -----

  lemma SeenEnableAction(crd: bool, who: Who, c: Component, b: Bundle, probe: Probe, a: Action)
    requires a in EnablePlan(CrdSeen(crd, probe), who, c, BundleSeen(b, probe))
    ensures a in EnablePlan(crd, who, c, b)
      || (crd && b.monitor.Some? && probe.Slips? && a.comp == c && Listing(a, ServiceMonitor, ByLabel({})))
  {
    var m := MonitorPlan(CrdSeen(crd, probe), who, c, BundleSeen(b, probe));
    if a in m && probe.Slips? && b.monitor.Some? {
      assert a in Purge(who, c, ServiceMonitor, ByLabel({}));
    }
  }

  lemma SeenDisableAction(crd: bool, who: Who, c: Component, probe: Probe, a: Action)
    requires a in DisablePlan(CrdSeen(crd, probe), who, c)
    ensures a in DisablePlan(crd, who, c)
  {
  }

  /** All that failed tests can add to a pass is the deletion of the monitors of a component that slips. */
  lemma {:induction false} SeenActionOver(d: Desired, ts: Tests, cs: seq<Component>, a: Action)
    requires a in PlanOver(Seen(d, ts), cs)
    ensures a in PlanOver(d, cs) || (Slipped(d, ts, a.comp) && Listing(a, ServiceMonitor, ByLabel({})))
  {
    var c := cs[0];
    if a in ComponentPlan(Seen(d, ts), c) {
      SeenComponent(d, ts, c);
      if c in d.bundles {
        SeenEnableAction(c in d.monitored, d.who, c, d.bundles[c], ProbeFor(ts, c), a);
      } else {
        SeenDisableAction(c in d.monitored, d.who, c, ProbeFor(ts, c), a);
      }
    } else {
      SeenActionOver(d, ts, cs[1..], a);
    }
  }

  lemma SeenActionIn(d: Desired, ts: Tests, a: Action)
    requires a in PassPlan(Seen(d, ts))
    ensures a in PassPlan(d) || (Slipped(d, ts, a.comp) && Listing(a, ServiceMonitor, ByLabel({})))
  {
    SeenActionOver(d, ts, Order(), a);
  }

  lemma MonitorStageAt(crd: bool, who: Who, c: Component, b: Bundle, probe: Probe, x: Item, o: Obj)
    requires GoodBundle(who, c, b) && b.monitor == Some(x) && Labelled(o, who.name, c)
    ensures EnableAt(CrdSeen(crd, probe), who, c, BundleSeen(b, probe), x.key, Some(o)).None? <==> crd && probe.Slips?
  {
    assert OwnItem(who, c, x, ServiceMonitor);
  }

  /** When a pass goes through but for failed tests: a wanted monitor that is stored with its labels is
      deleted if and only if the first test at the component's turn failed and the second one did not. */
  lemma MonitorLostIff(d: Desired, ts: Tests, c: Component, s: Store, t: Store)
    requires GoodDesired(d) && LabelledWell(s) && c in d.bundles && d.bundles[c].monitor.Some?
    requires var k := d.bundles[c].monitor.value.key; k in s && Labelled(s[k], d.who.name, c)
    requires Completed(PassPlan(Seen(d, ts)), s, t)
    ensures d.bundles[c].monitor.value.key !in t <==> Slipped(d, ts, c)
  {
    var e, b, x := Seen(d, ts), d.bundles[c], d.bundles[c].monitor.value;
    var k := x.key;
    assert OwnItem(d.who, c, x, ServiceMonitor);
    SeenIsGood(d, ts);
    AloneWF(d.who, s);
    assert WF({d.who}, k, At(s, k));
    PassAt({d.who}, e, c, k, At(s, k));
    EnablePlanAt(c in e.monitored, e.who, c, e.bundles[c], k, At(s, k));
    MonitorStageAt(c in d.monitored, d.who, c, b, ProbeFor(ts, c), x, s[k]);
    assert At(t, k) == EnableAt(c in e.monitored, e.who, c, e.bundles[c], k, At(s, k));
  }

  lemma OwnActionKeeps(b: Bundle, a: Action, k: Key, slot: Slot)
    requires EnableAction(b, a) && b.monitor.Some? && k.kind == ServiceMonitor && slot.Some?
    ensures Effect(a, k, slot).Some?
  {
  }

  lemma OtherActionKeeps(d: Desired, c: Component, a: Action, k: Key, slot: Slot)
    requires a.who == d.who && Disciplined(a) && a.comp != c && WF({d.who}, k, slot)
    requires NameOwner(k) == Some(Owner(d.who.ns, d.who.name, c))
    ensures Effect(a, k, slot) == slot
  {
    Foreign({d.who}, a, k, slot);
  }

  /** An action of a pass that wants a monitor leaves what is stored under its name. */
  lemma KeepsMonitor(d: Desired, c: Component, a: Action, k: Key, slot: Slot)
    requires GoodDesired(d) && c in d.bundles && d.bundles[c].monitor.Some? && k == d.bundles[c].monitor.value.key
    requires PassAction(d, a) && slot.Some? && WF({d.who}, k, slot)
    ensures Effect(a, k, slot).Some? && WF({d.who}, k, Effect(a, k, slot))
  {
    assert OwnItem(d.who, c, d.bundles[c].monitor.value, ServiceMonitor);
    PassDisciplined(d, a);
    if a.comp == c {
      OwnActionKeeps(d.bundles[c], a, k, slot);
      KeepsWF({d.who}, a, k, slot);
    } else {
      OtherActionKeeps(d, c, a, k, slot);
    }
  }

  lemma {:induction false} MonitorReached(d: Desired, c: Component, p: Actions, k: Key, before: Slot, after: Slot)
    requires GoodDesired(d) && c in d.bundles && d.bundles[c].monitor.Some? && k == d.bundles[c].monitor.value.key
    requires (forall a :: a in p ==> PassAction(d, a)) && before.Some? && WF({d.who}, k, before)
    requires Reachable(p, k, before, after)
    ensures after.Some?
  {
    if p != [] {
      assert p[0] in p;
      if Reachable(p[1..], k, before, after) {
        MonitorReached(d, c, p[1..], k, before, after);
      } else {
        KeepsMonitor(d, c, p[0], k, before);
        MonitorReached(d, c, p[1..], k, Effect(p[0], k, before), after);
      }
    }
  }

  /** With any other calls failing on top, and a pass cut short anywhere, still only a slip deletes what is
      stored under the name of a wanted monitor. */
  lemma OnlySlipsDelete(d: Desired, ts: Tests, c: Component, s: Store, t: Store)
    requires GoodDesired(d) && LabelledWell(s) && c in d.bundles && d.bundles[c].monitor.Some?
    requires d.bundles[c].monitor.value.key in s && Partial(PassPlan(Seen(d, ts)), s, t) && !ProbeFor(ts, c).Slips?
    ensures d.bundles[c].monitor.value.key in t
  {
    var k := d.bundles[c].monitor.value.key;
    SeenIsGood(d, ts);
    AloneWF(d.who, s);
    assert WF({d.who}, k, At(s, k));
    assert Reachable(PassPlan(Seen(d, ts)), k, At(s, k), At(t, k));
    forall a | a in PassPlan(Seen(d, ts)) ensures PassAction(Seen(d, ts), a) { InPlanOver(Seen(d, ts), Order(), a); }
    MonitorReached(Seen(d, ts), c, PassPlan(Seen(d, ts)), k, At(s, k), At(t, k));
  }
}
