/** Runs of passes, complete or not, and what they leave under one key. What the specs generate is abstract
    here: a plan is any function from resources to good desired states. */
module Runs {
  import opened Text
  import opened Model
  import opened Names
  import opened Resources
  import opened Compare
  import opened Plan
  import opened Coherence
  import opened PlanFacts
  import opened Outcomes
  import opened Convergence
  import opened Probes

  // ----- What a bundle wants under a key -----

  /** The object that a bundle wants under a key. */
  function ItemOf(crd: bool, b: Bundle, k: Key): Option<Item>
  {
    match k.kind
    case ConfigMap =>
      if k == b.config.key then Some(b.config)
      else if b.extra.Some? && k == b.extra.value.key then b.extra else None
    case Deployment => if k == b.deployment.key then Some(b.deployment) else None
    case Service => ItemFor(b.services, k)
    case ServiceMonitor => if crd && b.monitor.Some? && k == b.monitor.value.key then b.monitor else None
    case Claim => if b.claim.Some? && k == b.claim.value.key then b.claim else None
    case ServiceAccount => if b.account.Some? && k == b.account.value.key then b.account else None
  }

  function ObjOf(x: Option<Item>): Slot
  {
    match x case None => None case Some(i) => Some(i.obj)
  }

  /** What a pass wants under a key of component `c`. */
  function WantsAt(d: Desired, c: Component, k: Key): Slot
  {
    if c in d.bundles then ObjOf(ItemOf(c in d.monitored, d.bundles[c], k)) else None
  }

  /** Keys that teardown knows and the drift checks cover: not the two leftovers, and not the Deployments
      of UPF and WebUI. */
  predicate Tracked(who: Who, c: Component, k: Key)
  {
    if k.kind == Service then k.ns == who.ns && NameOwner(k) == Some(Owner(who.ns, who.name, c))
    else k == BaseKey(k.kind, who, c) && !(k.kind == ConfigMap && c == MongoDB)
         && !(k.kind == Deployment && (c == UPF || c == WebUI))
  }

  lemma TrackedOwner(who: Who, c: Component, k: Key)
    requires Tracked(who, c, k)
    ensures NameOwner(k) == Some(Owner(who.ns, who.name, c))
  {
    if k.kind != Service { DecodeGenerated(k.kind, Ident(who.name, c, "")); }
  }

  // ----- A complete pass over an object of an earlier bundle -----

  lemma ItemOfIsOwn(crd: bool, who: Who, c: Component, b: Bundle, k: Key)
    requires GoodBundle(who, c, b) && ItemOf(crd, b, k).Some?
    ensures OwnItem(who, c, ItemOf(crd, b, k).value, k.kind) && ItemOf(crd, b, k).value.key == k
  {
    var x := ItemOf(crd, b, k).value;
    if k.kind == Service {
      assert x in b.services;
    } else {
      ItemOfIsWanted(crd, b, k);
    }
    assert Wanted(b, x);
    WantedIsOwn(who, c, b, x);
  }

  lemma ItemOfIsWanted(crd: bool, b: Bundle, k: Key)
    requires ItemOf(crd, b, k).Some? && k.kind != Service
    ensures var x := ItemOf(crd, b, k).value; x.key == k && Wanted(b, x)
  {
  }

  lemma OwnItemWF(who: Who, c: Component, x: Item)
    requires OwnItem(who, c, x, x.key.kind)
    ensures WF({who}, x.key, Some(x.obj))
  {
  }

  lemma NotWantedName(xs: seq<Item>, k: Key)
    requires ItemFor(xs, k).None? && forall x :: x in xs ==> x.key.kind == k.kind && x.key.ns == k.ns
    ensures k.name !in NamesOf(xs)
  {
    forall x | x in xs ensures x.key.name != k.name {
      assert x.key != k;
    }
  }

  /** What reconciling under a key needs so that an object that an earlier spec generated becomes the wanted
      one: it is replaced, or it is of a kind that is swept. */
  predicate Replaceable(crd: bool, who: Who, b: Bundle, k: Key, x: Item)
  {
    match ItemOf(crd, b, k)
    case Some(y) => Reconciled(who, k, y.obj, x.obj) == y.obj
    case None => Swept(k.kind) && (k.kind == ServiceMonitor ==> crd && b.monitor.None?) && (k.kind == ServiceAccount ==> b.account.None?)
  }

  lemma ServiceReaches(who: Who, c: Component, b: Bundle, k: Key, x: Option<Item>)
    requires GoodBundle(who, c, b) && k.kind == Service
    requires x.Some? ==> x.value.key == k && OwnItem(who, c, x.value, Service) && Replaceable(false, who, b, k, x.value)
    ensures ServicesAt(who, c, b.services, k, ObjOf(x)) == ObjOf(ItemFor(b.services, k))
  {
    if x.Some? && ItemFor(b.services, k).None? {
      LabelledMeansOwner(k, x.value.obj, who.name, c);
      forall z | z in b.services ensures z.key.kind == Service && z.key.ns == who.ns { assert OwnItem(who, c, z, Service); }
      NotWantedName(b.services, k);
    }
  }

  lemma OptionReaches(who: Who, c: Component, k: Key, y: Option<Item>, x: Option<Item>)
    requires y.Some? ==> y.value.key == k
    requires x.Some? ==> x.value.key == k && OwnItem(who, c, x.value, k.kind)
    requires x.Some? && y.Some? ==> Reconciled(who, k, y.value.obj, x.value.obj) == y.value.obj
    ensures OrPurgedAt(who, c, k.kind, y, k, ObjOf(x)) == ObjOf(y)
    ensures x.Some? ==> y.Some? ==> OptionAt(who, y, k, ObjOf(x)) == ObjOf(y)
  {
    if x.Some? { LabelledMeansOwner(k, x.value.obj, who.name, c); }
  }

  /** An enabled component over an object that an earlier spec generated, or over nothing. */
  lemma EnableReaches(crd: bool, who: Who, c: Component, b: Bundle, k: Key, x: Option<Item>)
    requires GoodBundle(who, c, b)
    requires x.Some? ==> x.value.key == k && OwnItem(who, c, x.value, k.kind) && Replaceable(crd, who, b, k, x.value)
    ensures EnableAt(crd, who, c, b, k, ObjOf(x)) == ObjOf(ItemOf(crd, b, k))
  {
    match k.kind {
      case Service => ServiceReaches(who, c, b, k, x);
      case ServiceMonitor =>
        if crd && (b.monitor.None? || b.monitor.value.key == k) { OptionReaches(who, c, k, b.monitor, x); }
      case ServiceAccount =>
        if b.account.None? || b.account.value.key == k { OptionReaches(who, c, k, b.account, x); }
      case _ =>
    }
  }

  lemma DisableReaches(crd: bool, who: Who, c: Component, k: Key, x: Option<Item>)
    requires x.Some? ==> x.value.key == k && OwnItem(who, c, x.value, k.kind)
    requires k.kind != Service ==> k == BaseKey(k.kind, who, c)
    requires k.kind == ServiceMonitor && x.Some? ==> crd
    ensures DisableAt(crd, who, c, k, ObjOf(x)) == None
  {
    if k.kind == Service && x.Some? { OwnServicePrefix(who, c, x.value); }
  }

  /** When the new bundle wants nothing under a key where the old one wanted something. */
  lemma NoLongerWanted(crd: bool, who: Who, c: Component, a: Bundle, b: Bundle, k: Key)
    requires BaseNamed(who, c, a) && BaseNamed(who, c, b) && Tracked(who, c, k)
    requires ItemOf(crd, a, k).Some? && ItemOf(crd, b, k).None?
    ensures Swept(k.kind) && (k.kind == ServiceMonitor ==> crd && b.monitor.None?)
    ensures k.kind == ServiceAccount ==> b.account.None?
  {
  }

  // ----- A pass that may fail anywhere -----

  /** One pass over a cluster, complete or cut short, with any calls and any tests for the CRD failing. */
  ghost predicate Attempt(d: Desired, s: Store, t: Store)
  {
    exists ts: Tests :: Partial(PassPlan(Seen(d, ts)), s, t)
  }

  /** What a plan ensures under a key is what its bundle wants there. */
  lemma EnsuredIsWanted(crd: bool, who: Who, c: Component, b: Bundle, a: Action)
    requires GoodBundle(who, c, b) && a in EnablePlan(crd, who, c, b) && a.op.Ensure?
    ensures ItemOf(crd, b, a.op.key) == Some(Item(a.op.key, a.op.want))
  {
    var x := Item(a.op.key, a.op.want);
    InEnablePlan(crd, who, c, b, a);
    WantedIsOwn(who, c, b, x);
    if x in b.services {
      WantedUnique(who, c, b, x, ItemFor(b.services, x.key).value);
    } else if b.monitor == Some(x) && !crd {
      UnmonitoredEnsures(who, c, b, a);
    }
  }

  lemma UnmonitoredEnsures(who: Who, c: Component, b: Bundle, a: Action)
    requires GoodBundle(who, c, b) && a in EnablePlan(false, who, c, b) && a.op.Ensure?
    ensures a.op.key.kind != ServiceMonitor
  {
    var e := b.(monitor := None);
    assert EnablePlan(false, who, c, e) == EnablePlan(false, who, c, b);
    InEnablePlan(false, who, c, e, a);
    if a.op.key.kind == ServiceMonitor { WantedIsOwn(who, c, b, Item(a.op.key, a.op.want)); }
  }

  lemma SeenWants(crd: bool, b: Bundle, probe: Probe, k: Key)
    ensures var x := ItemOf(CrdSeen(crd, probe), BundleSeen(b, probe), k); x.Some? ==> x == ItemOf(crd, b, k)
  {
  }

  /** One action under a key of its own component: nothing new but what the bundle wants there. */
  lemma EnableMakes(crd: bool, who: Who, c: Component, b: Bundle, probe: Probe, a: Action, k: Key, slot: Slot)
    requires GoodBundle(who, c, b) && a in EnablePlan(CrdSeen(crd, probe), who, c, BundleSeen(b, probe))
    ensures var after, want := Effect(a, k, slot), ObjOf(ItemOf(crd, b, k));
      after == slot || after.None? || (want.Some? && after == EnsureSlot(who, k, want.value, slot))
  {
    if a.op.Ensure? {
      var seen, e := CrdSeen(crd, probe), BundleSeen(b, probe);
      InEnablePlan(seen, who, c, e, a);
      EnsuredIsWanted(seen, who, c, e, a);
      SeenWants(crd, b, probe, a.op.key);
    }
  }

  lemma DisableMakes(crd: bool, who: Who, c: Component, a: Action, k: Key, slot: Slot)
    requires a in DisablePlan(crd, who, c)
    ensures Effect(a, k, slot) == slot || Effect(a, k, slot).None?
  {
    InDisablePlan(crd, who, c, a);
  }

  lemma ActionMakes(d: Desired, ts: Tests, c: Component, a: Action, k: Key, slot: Slot)
    requires GoodDesired(d) && a in ComponentPlan(Seen(d, ts), c)
    ensures var after := Effect(a, k, slot);
      after == slot || after.None?
      || (WantsAt(d, c, k).Some? && after == EnsureSlot(d.who, k, WantsAt(d, c, k).value, slot))
  {
    var probe := ProbeFor(ts, c);
    SeenComponent(d, ts, c);
    if c in d.bundles {
      EnableMakes(c in d.monitored, d.who, c, d.bundles[c], probe, a, k, slot);
    } else {
      DisableMakes(CrdSeen(c in d.monitored, probe), d.who, c, a, k, slot);
    }
  }

  lemma {:induction false} InOwnPlan(d: Desired, cs: seq<Component>, a: Action)
    requires a in PlanOver(d, cs)
    ensures a in ComponentPlan(d, a.comp)
  {
    if a in ComponentPlan(d, cs[0]) { InComponentPlan(d, cs[0], a); } else { InOwnPlan(d, cs[1..], a); }
  }

  /** The same for any action of a pass, whatever tests fail. */
  lemma PassMakes(d: Desired, ts: Tests, c: Component, a: Action, k: Key, slot: Slot)
    requires GoodDesired(d) && a in PassPlan(Seen(d, ts))
    requires NameOwner(k) == Some(Owner(d.who.ns, d.who.name, c)) && WF({d.who}, k, slot)
    ensures var after := Effect(a, k, slot);
      after == slot || after.None?
      || (WantsAt(d, c, k).Some? && after == EnsureSlot(d.who, k, WantsAt(d, c, k).value, slot))
  {
    var e := Seen(d, ts);
    InOwnPlan(e, Order(), a);
    if a.comp == c {
      ActionMakes(d, ts, c, a, k, slot);
    } else {
      SeenIsGood(d, ts);
      InPlanOver(e, Order(), a);
      PassDisciplined(e, a);
      Foreign({d.who}, a, k, slot);
    }
  }

  // ----- A pass at one key -----

  /** What a complete pass makes of the object under a key of component `c`. */
  function PassStep(d: Desired, c: Component, k: Key, slot: Slot): Slot
  {
    if c in d.bundles then EnableAt(c in d.monitored, d.who, c, d.bundles[c], k, slot)
    else DisableAt(c in d.monitored, d.who, c, k, slot)
  }

  predicate OwnKey(who: Who, c: Component, k: Key)
  {
    NameOwner(k) == Some(Owner(who.ns, who.name, c)) && !Swept(k.kind)
  }

  lemma CompletePass(d: Desired, c: Component, k: Key, s: Store, t: Store)
    requires GoodDesired(d) && NameOwner(k) == Some(Owner(d.who.ns, d.who.name, c)) && WF({d.who}, k, At(s, k))
    requires Completed(PassPlan(d), s, t)
    ensures At(t, k) == PassStep(d, c, k, At(s, k))
  {
    PassAt({d.who}, d, c, k, At(s, k));
    if c in d.bundles {
      EnablePlanAt(c in d.monitored, d.who, c, d.bundles[c], k, At(s, k));
    } else {
      DisablePlanAt(c in d.monitored, d.who, c, k, At(s, k));
    }
  }

  lemma WantedAt(crd: bool, who: Who, c: Component, b: Bundle, k: Key, x: Item, slot: Slot)
    requires GoodBundle(who, c, b) && !Swept(k.kind) && ItemOf(crd, b, k) == Some(x)
    ensures EnableAt(crd, who, c, b, k, slot) == EnsureSlot(who, k, x.obj, slot)
  {
  }

  lemma EnableStep(crd: bool, who: Who, c: Component, b: Bundle, probe: Probe, a: Action, k: Key, slot: Slot)
    requires GoodBundle(who, c, b) && !Swept(k.kind)
    requires a in EnablePlan(CrdSeen(crd, probe), who, c, BundleSeen(b, probe))
    ensures Effect(a, k, slot) == slot || Effect(a, k, slot) == EnableAt(crd, who, c, b, k, slot)
  {
    var seen, e := CrdSeen(crd, probe), BundleSeen(b, probe);
    InEnablePlan(seen, who, c, e, a);
    if a.op.Ensure? && a.op.key == k {
      EnsuredIsWanted(seen, who, c, e, a);
      SeenWants(crd, b, probe, k);
      WantedAt(crd, who, c, b, k, Item(k, a.op.want), slot);
    }
  }

  lemma DisableStep(crd: bool, who: Who, c: Component, a: Action, k: Key, slot: Slot)
    requires a in DisablePlan(crd, who, c) && !Swept(k.kind)
    ensures Effect(a, k, slot) == slot || Effect(a, k, slot) == DisableAt(crd, who, c, k, slot)
  {
    InDisablePlan(crd, who, c, a);
  }

  lemma OwnActionSteps(d: Desired, ts: Tests, c: Component, a: Action, k: Key, slot: Slot)
    requires GoodDesired(d) && OwnKey(d.who, c, k) && a in ComponentPlan(Seen(d, ts), c)
    ensures Effect(a, k, slot) == slot || Effect(a, k, slot) == PassStep(d, c, k, slot)
  {
    var probe := ProbeFor(ts, c);
    SeenComponent(d, ts, c);
    if c in d.bundles {
      EnableStep(c in d.monitored, d.who, c, d.bundles[c], probe, a, k, slot);
    } else {
      DisableStep(CrdSeen(c in d.monitored, probe), d.who, c, a, k, slot);
    }
  }

  /** One action of a pass does nothing to such an object, or all that the pass does. */
  lemma ActionSteps(d: Desired, ts: Tests, c: Component, a: Action, k: Key, slot: Slot)
    requires GoodDesired(d) && OwnKey(d.who, c, k) && a in PassPlan(Seen(d, ts))
    ensures Effect(a, k, slot) == slot || Effect(a, k, slot) == PassStep(d, c, k, slot)
  {
    var e := Seen(d, ts);
    InOwnPlan(e, Order(), a);
    if a.comp == c {
      OwnActionSteps(d, ts, c, a, k, slot);
    } else {
      SeenIsGood(d, ts);
      InPlanOver(e, Order(), a);
      PassDisciplined(e, a);
      Foreign({d.who}, a, k, slot);
    }
  }

  lemma EnableIdempotent(crd: bool, who: Who, c: Component, b: Bundle, k: Key, slot: Slot)
    requires GoodBundle(who, c, b) && !Swept(k.kind)
    ensures EnableAt(crd, who, c, b, k, EnableAt(crd, who, c, b, k, slot)) == EnableAt(crd, who, c, b, k, slot)
  {
    match k.kind
    case ConfigMap =>
      EnsureIdempotent(who, k, b.config.obj, slot);
      if b.extra.Some? { EnsureIdempotent(who, k, b.extra.value.obj, slot); }
    case Deployment => EnsureIdempotent(who, k, b.deployment.obj, slot);
    case Claim => if b.claim.Some? { EnsureIdempotent(who, k, b.claim.value.obj, slot); }
    case _ =>
  }

  lemma StepIdempotent(d: Desired, c: Component, k: Key, slot: Slot)
    requires GoodDesired(d) && !Swept(k.kind)
    ensures PassStep(d, c, k, PassStep(d, c, k, slot)) == PassStep(d, c, k, slot)
  {
    if c in d.bundles { EnableIdempotent(c in d.monitored, d.who, c, d.bundles[c], k, slot); }
  }

  lemma {:induction false} ReachesStep(d: Desired, ts: Tests, c: Component, p: Actions, k: Key, before: Slot, after: Slot)
    requires GoodDesired(d) && OwnKey(d.who, c, k) && (forall a :: a in p ==> a in PassPlan(Seen(d, ts)))
    requires Reachable(p, k, before, after)
    ensures after == before || after == PassStep(d, c, k, before)
  {
    if p != [] {
      if Reachable(p[1..], k, before, after) {
        ReachesStep(d, ts, c, p[1..], k, before, after);
      } else {
        ActionSteps(d, ts, c, p[0], k, before);
        StepIdempotent(d, c, k, before);
        ReachesStep(d, ts, c, p[1..], k, Effect(p[0], k, before), after);
      }
    }
  }

  /** An interrupted or failing pass leaves the object as it was, or as a complete pass leaves it. */
  lemma AttemptSteps(d: Desired, c: Component, k: Key, s: Store, t: Store)
    requires GoodDesired(d) && OwnKey(d.who, c, k) && Attempt(d, s, t)
    ensures At(t, k) == At(s, k) || At(t, k) == PassStep(d, c, k, At(s, k))
  {
    var ts: Tests :| Partial(PassPlan(Seen(d, ts)), s, t);
    assert Reachable(PassPlan(Seen(d, ts)), k, At(s, k), At(t, k));
    ReachesStep(d, ts, c, PassPlan(Seen(d, ts)), k, At(s, k), At(t, k));
  }

  // ----- Histories -----

  type Planner = Resource -> Desired

  ghost predicate Proper(f: Planner)
  {
    forall r: Resource :: GoodDesired(f(r)) && f(r).who == r.core.who
  }

  /** A history: a first cluster, and passes of one CR, each with a spec and the cluster that it left. */
  datatype Log = Begin(start: Store) | Pass(before: Log, spec: Resource, after: Store)

  function First(h: Log): Store
  {
    match h case Begin(s) => s case Pass(b, _, _) => First(b)
  }

  function Last(h: Log): Store
  {
    match h case Begin(s) => s case Pass(_, _, t) => t
  }

  /** Any pass of it may be cut short, and any calls and tests may fail. */
  ghost predicate Attempts(f: Planner, who: Who, h: Log)
  {
    match h
    case Begin(_) => true
    case Pass(b, r, t) => r.core.who == who && Attempt(f(r), Last(b), t) && Attempts(f, who, b)
  }

  ghost predicate Done(f: Planner, r: Resource, s: Store, t: Store)
  {
    Completed(PassPlan(f(r)), s, t)
  }

  /** No pass of it was cut short, and nothing failed. */
  ghost predicate AllDone(f: Planner, h: Log)
  {
    match h
    case Begin(_) => true
    case Pass(b, r, t) => Done(f, r, Last(b), t) && AllDone(f, b)
  }

  lemma CompleteIsAttempt(f: Planner, r: Resource, s: Store, t: Store)
    requires Done(f, r, s, t)
    ensures Attempt(f(r), s, t)
  {
    AnsweredSeesAll(f(r), []);
    CompletedIsPartial(PassPlan(f(r)), s, t);
    assert Partial(PassPlan(Seen(f(r), [])), s, t);
  }

  // ----- Families of objects -----

  ghost predicate OfBundle(crd: bool, who: Who, c: Component, k: Key, x: Obj)
  {
    exists b: Bundle :: GoodBundle(who, c, b) && BaseNamed(who, c, b) && ItemOf(crd, b, k) == Some(Item(k, x))
  }

  /** What different specs generate under one key: reconciling one of them towards another ends in one of
      the two. */
  ghost predicate Closed(crd: bool, family: Obj -> bool, who: Who, c: Component, k: Key)
  {
    && NameOwner(k) == Some(Owner(who.ns, who.name, c))
    && (forall x :: family(x) ==> OfBundle(crd, who, c, k, x))
    && (forall x, y :: family(x) && family(y) ==> Reconciled(who, k, y, x) == y || Reconciled(who, k, y, x) == x)
  }

  ghost predicate Within(family: Obj -> bool, slot: Slot)
  {
    slot.Some? ==> family(slot.value)
  }

  lemma MemberIsOwn(crd: bool, family: Obj -> bool, who: Who, c: Component, k: Key, x: Obj)
    requires Closed(crd, family, who, c, k) && family(x)
    ensures OwnItem(who, c, Item(k, x), k.kind) && WF({who}, k, Some(x))
  {
    var b: Bundle :| GoodBundle(who, c, b) && BaseNamed(who, c, b) && ItemOf(crd, b, k) == Some(Item(k, x));
    ItemOfIsOwn(crd, who, c, b, k);
    OwnItemWF(who, c, Item(k, x));
  }

  lemma EnsuredWithin(crd: bool, family: Obj -> bool, who: Who, c: Component, k: Key, want: Obj, slot: Slot)
    requires Closed(crd, family, who, c, k) && Within(family, slot) && family(want)
    ensures Within(family, EnsureSlot(who, k, want, slot))
  {
    if slot.Some? { assert Reconciled(who, k, want, slot.value) == want || Reconciled(who, k, want, slot.value) == slot.value; }
  }

  lemma StaysWithin(crd: bool, family: Obj -> bool, d: Desired, ts: Tests, c: Component, a: Action, k: Key, slot: Slot)
    requires GoodDesired(d) && Closed(crd, family, d.who, c, k) && Within(family, slot) && Within(family, WantsAt(d, c, k))
    requires a in PassPlan(Seen(d, ts))
    ensures Within(family, Effect(a, k, slot))
  {
    if slot.Some? { MemberIsOwn(crd, family, d.who, c, k, slot.value); }
    PassMakes(d, ts, c, a, k, slot);
    if WantsAt(d, c, k).Some? { EnsuredWithin(crd, family, d.who, c, k, WantsAt(d, c, k).value, slot); }
  }

  lemma {:induction false} ReachesWithin(crd: bool, family: Obj -> bool, d: Desired, ts: Tests, c: Component, p: Actions, k: Key,
                                         before: Slot, after: Slot)
    requires GoodDesired(d) && Closed(crd, family, d.who, c, k) && Within(family, before) && Within(family, WantsAt(d, c, k))
    requires (forall a :: a in p ==> a in PassPlan(Seen(d, ts))) && Reachable(p, k, before, after)
    ensures Within(family, after)
  {
    if p != [] {
      if Reachable(p[1..], k, before, after) {
        ReachesWithin(crd, family, d, ts, c, p[1..], k, before, after);
      } else {
        StaysWithin(crd, family, d, ts, c, p[0], k, before);
        ReachesWithin(crd, family, d, ts, c, p[1..], k, Effect(p[0], k, before), after);
      }
    }
  }

  /** Whatever a pass does or fails to do, there is still nothing, or a member of the family. */
  lemma AttemptStays(crd: bool, family: Obj -> bool, d: Desired, c: Component, k: Key, s: Store, t: Store)
    requires GoodDesired(d) && Closed(crd, family, d.who, c, k) && Within(family, WantsAt(d, c, k))
    requires Within(family, At(s, k)) && Attempt(d, s, t)
    ensures Within(family, At(t, k))
  {
    var ts: Tests :| Partial(PassPlan(Seen(d, ts)), s, t);
    assert Reachable(PassPlan(Seen(d, ts)), k, At(s, k), At(t, k));
    ReachesWithin(crd, family, d, ts, c, PassPlan(Seen(d, ts)), k, At(s, k), At(t, k));
  }

  ghost predicate WantsWithin(f: Planner, family: Obj -> bool, who: Who, c: Component, k: Key)
  {
    forall r: Resource :: r.core.who == who ==> Within(family, WantsAt(f(r), c, k))
  }

  lemma {:induction false} HistoryStays(f: Planner, crd: bool, family: Obj -> bool, who: Who, h: Log, c: Component, k: Key)
    requires Proper(f) && Closed(crd, family, who, c, k) && WantsWithin(f, family, who, c, k)
    requires Attempts(f, who, h) && Within(family, At(First(h), k))
    ensures Within(family, At(Last(h), k))
  {
    if h.Pass? {
      HistoryStays(f, crd, family, who, h.before, c, k);
      AttemptStays(crd, family, f(h.spec), c, k, Last(h.before), h.after);
    }
  }

  /** A complete pass over a member of the family that the wanted object replaces, or over nothing. */
  lemma Settles(family: Obj -> bool, d: Desired, c: Component, k: Key, s: Store, t: Store)
    requires GoodDesired(d) && Tracked(d.who, c, k) && Closed(c in d.monitored, family, d.who, c, k)
    requires c in d.bundles ==> BaseNamed(d.who, c, d.bundles[c])
    requires Within(family, At(s, k)) && Completed(PassPlan(d), s, t)
    requires At(s, k).Some? && WantsAt(d, c, k).Some? ==>
      Reconciled(d.who, k, WantsAt(d, c, k).value, At(s, k).value) == WantsAt(d, c, k).value
    ensures At(t, k) == WantsAt(d, c, k)
  {
    var crd, slot := c in d.monitored, At(s, k);
    if slot.Some? {
      MemberIsOwn(crd, family, d.who, c, k, slot.value);
      assert OfBundle(crd, d.who, c, k, slot.value);
      CompletePass(d, c, k, s, t);
      SettlesFromItem(d, c, k, slot.value);
    } else {
      CompletePass(d, c, k, s, t);
      SettlesFromNothing(d, c, k);
    }
  }

  lemma SettlesFromNothing(d: Desired, c: Component, k: Key)
    requires GoodDesired(d) && Tracked(d.who, c, k)
    ensures PassStep(d, c, k, None) == WantsAt(d, c, k)
  {
    if c in d.bundles {
      EnableReaches(c in d.monitored, d.who, c, d.bundles[c], k, None);
    } else {
      DisableReaches(c in d.monitored, d.who, c, k, None);
    }
  }

  lemma BundleWith(crd: bool, who: Who, c: Component, k: Key, x: Obj) returns (a: Bundle)
    requires OfBundle(crd, who, c, k, x)
    ensures GoodBundle(who, c, a) && BaseNamed(who, c, a) && ItemOf(crd, a, k) == Some(Item(k, x))
  {
    a :| GoodBundle(who, c, a) && BaseNamed(who, c, a) && ItemOf(crd, a, k) == Some(Item(k, x));
  }

  lemma EnabledSettles(crd: bool, who: Who, c: Component, a: Bundle, b: Bundle, k: Key, x: Obj)
    requires GoodBundle(who, c, a) && BaseNamed(who, c, a) && ItemOf(crd, a, k) == Some(Item(k, x))
    requires GoodBundle(who, c, b) && BaseNamed(who, c, b) && Tracked(who, c, k)
    requires ItemOf(crd, b, k).Some? ==> Reconciled(who, k, ItemOf(crd, b, k).value.obj, x) == ItemOf(crd, b, k).value.obj
    ensures EnableAt(crd, who, c, b, k, Some(x)) == ObjOf(ItemOf(crd, b, k))
  {
    ItemOfIsOwn(crd, who, c, a, k);
    if ItemOf(crd, b, k).None? { NoLongerWanted(crd, who, c, a, b, k); }
    EnableReaches(crd, who, c, b, k, Some(Item(k, x)));
  }

  lemma SettlesFromItem(d: Desired, c: Component, k: Key, x: Obj)
    requires GoodDesired(d) && Tracked(d.who, c, k) && OfBundle(c in d.monitored, d.who, c, k, x)
    requires c in d.bundles ==> BaseNamed(d.who, c, d.bundles[c])
    requires WantsAt(d, c, k).Some? ==> Reconciled(d.who, k, WantsAt(d, c, k).value, x) == WantsAt(d, c, k).value
    ensures PassStep(d, c, k, Some(x)) == WantsAt(d, c, k)
  {
    var crd := c in d.monitored;
    var a := BundleWith(crd, d.who, c, k, x);
    if c in d.bundles {
      EnabledSettles(crd, d.who, c, a, d.bundles[c], k, x);
    } else {
      ItemOfIsOwn(crd, d.who, c, a, k);
      DisableReaches(crd, d.who, c, k, Some(Item(k, x)));
    }
  }

  // ----- The passes that got to an object -----

  /** The specs of some of the passes. */
  datatype Specs = Nothing | Later(before: Specs, last: Resource)

  function SpecsOf(h: Log): Specs
  {
    match h case Begin(_) => Nothing case Pass(b, r, _) => Later(SpecsOf(b), r)
  }

  predicate PickedFrom(es: Specs, h: Log)
  {
    match h
    case Begin(_) => es == Nothing
    case Pass(b, r, _) => PickedFrom(es, b) || (es.Later? && es.last == r && PickedFrom(es.before, b))
  }

  predicate OfCr(who: Who, es: Specs)
  {
    es.Later? ==> es.last.core.who == who && OfCr(who, es.before)
  }

  /** What passes with these specs, each of which got to the object, make of it. */
  function Steps(f: Planner, c: Component, k: Key, es: Specs, slot: Slot): Slot
  {
    match es case Nothing => slot case Later(b, r) => PassStep(f(r), c, k, Steps(f, c, k, b, slot))
  }

  /** One more pass: it got to the object or it did not. */
  lemma NextEffective(f: Planner, r: Resource, c: Component, k: Key, s: Store, t: Store, es: Specs, slot: Slot)
    returns (next: Specs)
    requires Proper(f) && OwnKey(r.core.who, c, k) && Attempt(f(r), s, t) && At(s, k) == Steps(f, c, k, es, slot)
    ensures (next == es || next == Later(es, r)) && (Done(f, r, s, t) ==> next == Later(es, r))
    ensures At(t, k) == Steps(f, c, k, next, slot)
  {
    AttemptSteps(f(r), c, k, s, t);
    if Done(f, r, s, t) { CompletePass(f(r), c, k, s, t); }
    next := if At(t, k) == PassStep(f(r), c, k, At(s, k)) then Later(es, r) else es;
  }

  /** After any history of passes, complete or not, the object is what the passes that got to it make of
      the first one. If all passes were complete these are all passes. */
  lemma {:induction false} EffectivePasses(f: Planner, who: Who, h: Log, c: Component, k: Key) returns (es: Specs)
    requires Proper(f) && OwnKey(who, c, k) && Attempts(f, who, h)
    ensures PickedFrom(es, h) && OfCr(who, es) && (AllDone(f, h) ==> es == SpecsOf(h))
    ensures At(Last(h), k) == Steps(f, c, k, es, At(First(h), k))
  {
    match h
    case Begin(_) => es := Nothing;
    case Pass(b, r, t) =>
      var front := EffectivePasses(f, who, b, c, k);
      es := NextEffective(f, r, c, k, Last(b), t, front, At(First(h), k));
  }

  /** The same with one complete pass at the end. */
  lemma FinalPass(f: Planner, who: Who, h: Log, r: Resource, t: Store, c: Component, k: Key) returns (es: Specs)
    requires Proper(f) && OwnKey(who, c, k) && Attempts(f, who, h) && r.core.who == who && Done(f, r, Last(h), t)
    ensures PickedFrom(es, h) && OfCr(who, es) && (AllDone(f, h) ==> es == SpecsOf(h))
    ensures At(t, k) == Steps(f, c, k, Later(es, r), At(First(h), k))
  {
    es := EffectivePasses(f, who, h, c, k);
    CompleteIsAttempt(f, r, Last(h), t);
    var next := NextEffective(f, r, c, k, Last(h), t, es, At(First(h), k));
  }

  // ----- Ownership over any run -----

  /** Over any run of passes of any instances, with any calls and tests failing and any pass cut short: an
      object protected from every one of the CRs is never changed or deleted. */
  lemma {:induction false} ProtectedForever(ds: seq<Desired>, ss: seq<Store>, k: Key, o: Obj)
    requires |ss| == |ds| + 1
    requires forall i :: 0 <= i < |ds| ==> GoodDesired(ds[i]) && Protected(ds[i].who, k, o)
    requires forall i :: 0 <= i < |ds| ==> Attempt(ds[i], ss[i], ss[i + 1])
    requires At(ss[0], k) == Some(o)
    ensures At(ss[|ds|], k) == Some(o)
  {
    if ds != [] {
      var n := |ds| - 1;
      ProtectedForever(ds[..n], ss[..n + 1], k, o);
      var ts: Tests :| Partial(PassPlan(Seen(ds[n], ts)), ss[n], ss[n + 1]);
      var e := Seen(ds[n], ts);
      SeenIsGood(ds[n], ts);
      forall a | a in PassPlan(e) ensures a.who == e.who && Disciplined(a) {
        InPlanOver(e, Order(), a);
        PassDisciplined(e, a);
      }
      assert Reachable(PassPlan(e), k, At(ss[n], k), At(ss[n + 1], k));
      ProtectedFromPlan(e.who, PassPlan(e), k, o, At(ss[n + 1], k));
    }
  }
}
