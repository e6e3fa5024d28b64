/** What one component's plan makes of every object of the cluster, and what follows from it. */
module Outcomes {
  import opened Text
  import opened Model
  import opened Names
  import opened Resources
  import opened Compare
  import opened Plan
  import opened Coherence
  import opened PlanFacts
  import opened Interleave

  // ----- Closed forms -----

  function ItemFor(xs: seq<Item>, k: Key): (r: Option<Item>)
    ensures r.Some? ==> r.value in xs && r.value.key == k
    ensures r.None? ==> forall x :: x in xs ==> x.key != k
  {
    if xs == [] then None else if xs[0].key == k then Some(xs[0]) else ItemFor(xs[1..], k)
  }

  function ItemAt(who: Who, x: Item, k: Key, slot: Slot): Slot
  {
    if x.key == k then EnsureSlot(who, k, x.obj, slot) else slot
  }

  function OptionAt(who: Who, x: Option<Item>, k: Key, slot: Slot): Slot
  {
    if x.Some? then ItemAt(who, x.value, k, slot) else slot
  }

  function SweptAt(who: Who, c: Component, kind: Kind, mode: Mode, k: Key, slot: Slot): Slot
  {
    if Hit(who, c, kind, mode, k, slot) then None else slot
  }

  function ServicesAt(who: Who, c: Component, xs: seq<Item>, k: Key, slot: Slot): Slot
  {
    match ItemFor(xs, k)
    case Some(x) => EnsureSlot(who, k, x.obj, slot)
    case None => SweptAt(who, c, Service, ByLabel(NamesOf(xs)), k, slot)
  }

  function OrPurgedAt(who: Who, c: Component, kind: Kind, x: Option<Item>, k: Key, slot: Slot): Slot
  {
    if x.Some? then ItemAt(who, x.value, k, slot) else SweptAt(who, c, kind, ByLabel({}), k, slot)
  }

  /** One object after an enabled component was reconciled. */
  function EnableAt(crd: bool, who: Who, c: Component, b: Bundle, k: Key, slot: Slot): Slot
  {
    match k.kind
    case ConfigMap => ItemAt(who, b.config, k, OptionAt(who, b.extra, k, slot))
    case Deployment => ItemAt(who, b.deployment, k, slot)
    case Service => ServicesAt(who, c, b.services, k, slot)
    case ServiceMonitor => if crd then OrPurgedAt(who, c, ServiceMonitor, b.monitor, k, slot) else slot
    case Claim => OptionAt(who, b.claim, k, slot)
    case ServiceAccount => OrPurgedAt(who, c, ServiceAccount, b.account, k, slot)
  }

  function DroppedAt(who: Who, c: Component, k: Key, slot: Slot): Slot
  {
    if k == BaseKey(k.kind, who, c) && slot.Some? && HasOwner(slot.value, who.uid) then None else slot
  }

  /** One object after a disabled component was torn down. */
  function DisableAt(crd: bool, who: Who, c: Component, k: Key, slot: Slot): Slot
  {
    match k.kind
    case Service => SweptAt(who, c, Service, ByPrefix, k, slot)
    case ServiceMonitor => if crd then DroppedAt(who, c, k, slot) else slot
    case _ => DroppedAt(who, c, k, slot)
  }

  // ----- The plans refine the closed forms -----

  lemma One(a: Action, k: Key, slot: Slot)
    ensures Effects([a], k, slot) == Effect(a, k, slot)
  {
    assert [a][1..] == [];
  }

  lemma Two(a: Action, b: Action, k: Key, slot: Slot)
    ensures Effects([a, b], k, slot) == Effect(b, k, Effect(a, k, slot))
  {
    assert [a, b][1..] == [b];
    One(b, k, Effect(a, k, slot));
  }

  lemma {:induction false} EnsureAllAt(who: Who, c: Component, xs: seq<Item>, k: Key, slot: Slot)
    requires KeysDistinct(xs)
    ensures Effects(EnsureAll(who, c, xs), k, slot)
         == match ItemFor(xs, k) case Some(x) => EnsureSlot(who, k, x.obj, slot) case None => slot
  {
    if xs != [] {
      var rest := xs[1..];
      forall i, j | 0 <= i < |rest| && 0 <= j < |rest| && rest[i].key == rest[j].key ensures i == j {
        assert xs[i + 1].key == xs[j + 1].key;
      }
      var a := EnsureItem(who, c, xs[0]);
      assert EnsureAll(who, c, xs)[1..] == EnsureAll(who, c, rest);
      EnsureAllAt(who, c, rest, k, Effect(a, k, slot));
      if xs[0].key == k {
        forall x | x in rest ensures x.key != k {
          var j :| 0 <= j < |rest| && rest[j] == x;
          assert xs[j + 1] == x;
        }
      }
    }
  }

  lemma PurgeAt(who: Who, c: Component, kind: Kind, mode: Mode, k: Key, slot: Slot)
    ensures Effects(Purge(who, c, kind, mode), k, slot) == SweptAt(who, c, kind, mode, k, slot)
  {
    Two(Action(who, c, Snap(kind, mode)), Action(who, c, Sweep(kind, mode)), k, slot);
  }

  /** The second reconcile loop over the services changes nothing after the first loop and the
      deletions, and deleting by the earlier list never takes a wanted service. */
  lemma ServicePlanAt(who: Who, c: Component, xs: seq<Item>, k: Key, slot: Slot)
    requires KeysDistinct(xs) && forall x :: x in xs ==> x.key.kind == Service && x.key.ns == who.ns
    ensures Effects(ServicePlan(who, c, xs), k, slot) == ServicesAt(who, c, xs, k, slot)
    ensures Effects(EnsureAll(who, c, xs), k, ServicesAt(who, c, xs, k, slot)) == ServicesAt(who, c, xs, k, slot)
  {
    var mode, es := ByLabel(NamesOf(xs)), EnsureAll(who, c, xs);
    var snap, sweep := Action(who, c, Snap(Service, mode)), Action(who, c, Sweep(Service, mode));
    var s1 := Effects(es, k, slot);
    var s2 := Effect(sweep, k, s1);
    EnsureAllAt(who, c, xs, k, slot);
    EnsureAllAt(who, c, xs, k, s2);
    One(snap, k, slot);
    One(sweep, k, s1);
    EffectsConcat([snap], es, k, slot);
    EffectsConcat([snap] + es, [sweep], k, slot);
    EffectsConcat([snap] + es + [sweep], es, k, slot);
    match ItemFor(xs, k) {
      case Some(x) =>
        assert x.key.name in NamesOf(xs);
        EnsureIdempotent(who, k, x.obj, slot);
      case None =>
    }
  }

  lemma ConfigPlanAt(who: Who, c: Component, b: Bundle, k: Key, slot: Slot)
    ensures Effects(ConfigPlan(who, c, b), k, slot)
         == ItemAt(who, b.deployment, k, ItemAt(who, b.config, k, OptionAt(who, b.extra, k, slot)))
  {
    var p, q := EnsureOpt(who, c, b.extra), [EnsureItem(who, c, b.config), EnsureItem(who, c, b.deployment)];
    EffectsConcat(p, q, k, slot);
    if b.extra.Some? { One(EnsureItem(who, c, b.extra.value), k, slot); }
    Two(EnsureItem(who, c, b.config), EnsureItem(who, c, b.deployment), k, Effects(p, k, slot));
  }

  lemma SmallPlansAt(who: Who, c: Component, kind: Kind, x: Option<Item>, k: Key, slot: Slot)
    ensures Effects(EnsureOpt(who, c, x), k, slot) == OptionAt(who, x, k, slot)
    ensures Effects(EnsureOrPurge(who, c, kind, x), k, slot) == OrPurgedAt(who, c, kind, x, k, slot)
  {
    if x.Some? {
      One(EnsureItem(who, c, x.value), k, slot);
    } else {
      PurgeAt(who, c, kind, ByLabel({}), k, slot);
    }
  }

  lemma FiveParts(p1: Actions, p2: Actions, p3: Actions, p4: Actions, p5: Actions, k: Key, slot: Slot)
    ensures Effects(p1 + p2 + p3 + p4 + p5, k, slot)
         == Effects(p5, k, Effects(p4, k, Effects(p3, k, Effects(p2, k, Effects(p1, k, slot)))))
  {
    EffectsConcat(p1, p2, k, slot);
    EffectsConcat(p1 + p2, p3, k, slot);
    EffectsConcat(p1 + p2 + p3, p4, k, slot);
    EffectsConcat(p1 + p2 + p3 + p4, p5, k, slot);
  }

  function ConfigAt(who: Who, b: Bundle, k: Key, slot: Slot): Slot
  {
    ItemAt(who, b.deployment, k, ItemAt(who, b.config, k, OptionAt(who, b.extra, k, slot)))
  }

  function MonitorAt(crd: bool, who: Who, c: Component, b: Bundle, k: Key, slot: Slot): Slot
  {
    if crd then OrPurgedAt(who, c, ServiceMonitor, b.monitor, k, slot) else slot
  }

  /** Each part of the plan concerns its own kinds only. */
  lemma KindsSeparate(crd: bool, who: Who, c: Component, b: Bundle, k: Key, slot: Slot)
    requires GoodBundle(who, c, b)
    ensures k.kind != ConfigMap && k.kind != Deployment ==> ConfigAt(who, b, k, slot) == slot
    ensures k.kind == ConfigMap ==> ConfigAt(who, b, k, slot) == ItemAt(who, b.config, k, OptionAt(who, b.extra, k, slot))
    ensures k.kind == Deployment ==> ConfigAt(who, b, k, slot) == ItemAt(who, b.deployment, k, slot)
    ensures k.kind != Service ==> ServicesAt(who, c, b.services, k, slot) == slot
    ensures k.kind != ServiceMonitor ==> MonitorAt(crd, who, c, b, k, slot) == slot
    ensures k.kind != Claim ==> OptionAt(who, b.claim, k, slot) == slot
    ensures k.kind != ServiceAccount ==> OrPurgedAt(who, c, ServiceAccount, b.account, k, slot) == slot
  {
    if ItemFor(b.services, k).Some? { assert OwnItem(who, c, ItemFor(b.services, k).value, Service); }
  }

  lemma EnablePlanAt(crd: bool, who: Who, c: Component, b: Bundle, k: Key, slot: Slot)
    requires GoodBundle(who, c, b)
    ensures Effects(EnablePlan(crd, who, c, b), k, slot) == EnableAt(crd, who, c, b, k, slot)
  {
    var s1 := ConfigAt(who, b, k, slot);
    var s2 := ServicesAt(who, c, b.services, k, s1);
    var s3 := MonitorAt(crd, who, c, b, k, s2);
    var s4 := OptionAt(who, b.claim, k, s3);
    FiveParts(ConfigPlan(who, c, b), ServicePlan(who, c, b.services), MonitorPlan(crd, who, c, b),
              EnsureOpt(who, c, b.claim), EnsureOrPurge(who, c, ServiceAccount, b.account), k, slot);
    ConfigPlanAt(who, c, b, k, slot);
    ServicePlanAt(who, c, b.services, k, s1);
    SmallPlansAt(who, c, ServiceMonitor, b.monitor, k, s2);
    SmallPlansAt(who, c, Claim, b.claim, k, s3);
    SmallPlansAt(who, c, ServiceAccount, b.account, k, s4);
    assert Effects(MonitorPlan(crd, who, c, b), k, s2) == s3;
    KindsSeparate(crd, who, c, b, k, slot);
    KindsSeparate(crd, who, c, b, k, s1);
    KindsSeparate(crd, who, c, b, k, s2);
    KindsSeparate(crd, who, c, b, k, s3);
    KindsSeparate(crd, who, c, b, k, s4);
  }

  lemma DisablePlanAt(crd: bool, who: Who, c: Component, k: Key, slot: Slot)
    ensures Effects(DisablePlan(crd, who, c), k, slot) == DisableAt(crd, who, c, k, slot)
  {
    var p1, p2 := [Drop(who, c, ConfigMap), Drop(who, c, Deployment)], Purge(who, c, Service, ByPrefix);
    var p3, p4 := if crd then [Drop(who, c, ServiceMonitor)] else [], [Drop(who, c, Claim), Drop(who, c, ServiceAccount)];
    var s1 := Effects(p1, k, slot);
    var s2 := Effects(p2, k, s1);
    var s3 := Effects(p3, k, s2);
    EffectsConcat(p1, p2, k, slot);
    EffectsConcat(p1 + p2, p3, k, slot);
    EffectsConcat(p1 + p2 + p3, p4, k, slot);
    Two(p1[0], p1[1], k, slot);
    PurgeAt(who, c, Service, ByPrefix, k, s1);
    if crd { One(Drop(who, c, ServiceMonitor), k, s2); }
    Two(p4[0], p4[1], k, s3);
  }

  // ----- The set of services -----

  lemma LabelledIsWanted(who: Who, c: Component, xs: seq<Item>, k: Key, slot: Slot)
    requires k.kind == Service && k.ns == who.ns
    requires var after := ServicesAt(who, c, xs, k, slot); after.Some? && Labelled(after.value, who.name, c)
    ensures k.name in NamesOf(xs)
  {
    if ItemFor(xs, k).Some? { assert ItemFor(xs, k).value in xs; }
  }

  /** An owned service has the wanted selector and type. */
  predicate ServiceExact(who: Who, x: Item, o: Obj)
  {
    HasOwner(o, who.uid) && o.body.ServiceBody? && x.obj.body.ServiceBody? ==>
      && o.body.service.selector == x.obj.body.service.selector
      && o.body.service.serviceType == x.obj.body.service.serviceType
  }

  lemma WantedServiceAfter(who: Who, c: Component, b: Bundle, x: Item, slot: Slot)
    requires GoodBundle(who, c, b) && x in b.services
    ensures ServicesAt(who, c, b.services, x.key, slot) == EnsureSlot(who, x.key, x.obj, slot)
    ensures ServiceExact(who, x, EnsureSlot(who, x.key, x.obj, slot).value)
  {
    assert OwnItem(who, c, x, Service);
    WantedUnique(who, c, b, x, ItemFor(b.services, x.key).value);
    if slot.Some? { ReconciledKeeps(who, x.key, x.obj, slot.value); }
  }

  ghost predicate ServicesExact(who: Who, c: Component, b: Bundle, t: Store)
  {
    && (forall k :: k in t && k.kind == Service && k.ns == who.ns && Labelled(t[k], who.name, c) ==>
          k.name in NamesOf(b.services))
    && (forall x :: x in b.services ==> x.key in t && ServiceExact(who, x, t[x.key]))
  }

  lemma LabelledServicesWanted(crd: bool, who: Who, c: Component, b: Bundle, s: Store, t: Store, k: Key)
    requires GoodBundle(who, c, b) && Completed(EnablePlan(crd, who, c, b), s, t)
    requires k in t && k.kind == Service && k.ns == who.ns && Labelled(t[k], who.name, c)
    ensures k.name in NamesOf(b.services)
  {
    assert At(t, k) == Some(t[k]);
    EnablePlanAt(crd, who, c, b, k, At(s, k));
    LabelledIsWanted(who, c, b.services, k, At(s, k));
  }

  lemma WantedServiceStored(crd: bool, who: Who, c: Component, b: Bundle, s: Store, t: Store, x: Item)
    requires GoodBundle(who, c, b) && Completed(EnablePlan(crd, who, c, b), s, t) && x in b.services
    ensures x.key in t && ServiceExact(who, x, t[x.key])
  {
    assert OwnItem(who, c, x, Service);
    EnablePlanAt(crd, who, c, b, x.key, At(s, x.key));
    WantedServiceAfter(who, c, b, x, At(s, x.key));
    assert At(t, x.key) == EnsureSlot(who, x.key, x.obj, At(s, x.key));
  }

  /** After an enabled component was reconciled, from any cluster: the services labelled for it are all
      wanted ones, every wanted service exists, and every owned one has the wanted selector and type. */
  lemma ServiceSetExact(crd: bool, who: Who, c: Component, b: Bundle, s: Store, t: Store)
    requires GoodBundle(who, c, b) && Completed(EnablePlan(crd, who, c, b), s, t)
    ensures ServicesExact(who, c, b, t)
  {
    forall k | k in t && k.kind == Service && k.ns == who.ns && Labelled(t[k], who.name, c)
      ensures k.name in NamesOf(b.services)
    {
      LabelledServicesWanted(crd, who, c, b, s, t, k);
    }
    forall x | x in b.services ensures x.key in t && ServiceExact(who, x, t[x.key]) {
      WantedServiceStored(crd, who, c, b, s, t, x);
    }
  }

  // ----- Teardown -----

  /** Disabling `c` deletes exactly the services of `c` among the owned services with generated names
      of this instance; a service that the CR does not own survives under any name. */
  lemma TeardownPrecise(crd: bool, who: Who, c: Component, k: Key, o: Obj)
    requires k.kind == Service && k.ns == who.ns
    ensures !HasOwner(o, who.uid) ==> Effects(DisablePlan(crd, who, c), k, Some(o)) == Some(o)
    ensures HasOwner(o, who.uid) && NameOwner(k).Some? && NameOwner(k).value.inst == who.name ==>
      Effects(DisablePlan(crd, who, c), k, Some(o)) == (if NameOwner(k).value.comp == c then None else Some(o))
  {
    DisablePlanAt(crd, who, c, k, Some(o));
    if NameOwner(k).Some? && NameOwner(k).value.inst == who.name {
      var i := Decode(Service, k.name).value;
      DecodeSound(Service, k.name);
      PrefixMeansComponent(who.name, c, Service, i);
    }
  }

  // ----- Enable, then disable -----

  /** Nothing in the cluster is named or labelled for component `c` of this CR, and no Service that the
      CR owns falls under the component's teardown prefix. */
  ghost predicate Untouched(who: Who, c: Component, s: Store)
  {
    forall k :: k in s ==>
      && NameOwner(k) != Some(Owner(who.ns, who.name, c))
      && (k.ns == who.ns ==> !Labelled(s[k], who.name, c))
      && !Hit(who, c, Service, ByPrefix, k, Some(s[k]))
  }

  /** The one ConfigMap that teardown forgets: the UPF entrypoint, or MongoDB's scripts. */
  function Leftover(c: Component, b: Bundle): Option<Item>
  {
    if c == MongoDB then Some(b.config) else b.extra
  }

  /** The bundle uses the component's base name for everything but the services and the leftover, and which
      of the fixed parts it has depends on the component alone. */
  predicate BaseNamed(who: Who, c: Component, b: Bundle)
  {
    && b.config.key == MainConfigKey(who, c) && (c == MongoDB ==> b.config.key != BaseKey(ConfigMap, who, c))
    && (b.extra.Some? <==> c == UPF)
    && (b.extra.Some? ==> b.extra.value.key == EntrypointKey(who) && b.extra.value.key != BaseKey(ConfigMap, who, c))
    && b.deployment.key == BaseKey(Deployment, who, c)
    && (b.monitor.Some? ==> b.monitor.value.key == BaseKey(ServiceMonitor, who, c))
    && (b.claim.Some? <==> c == MongoDB) && (b.claim.Some? ==> b.claim.value.key == BaseKey(Claim, who, c))
    && (b.account.Some? ==> b.account.value.key == BaseKey(ServiceAccount, who, c))
  }

  lemma ExtraNamesDiffer(who: Who, c: Component)
    ensures ServiceName(who.name, c, "common-scripts") != BaseName(who.name, c)
    ensures ServiceName(who.name, c, "entrypoint") != BaseName(who.name, c)
  {
    assert |ServiceName(who.name, c, "common-scripts")| > |BaseName(who.name, c)|;
    assert |ServiceName(who.name, c, "entrypoint")| > |BaseName(who.name, c)|;
  }

  lemma GeneratedAreBaseNamed(w: World, r: Resource, c: Component)
    ensures BaseNamed(r.core.who, c, BundleOf(w, r, c))
  {
    ExtraNamesDiffer(r.core.who, c);
  }

  function KeepLeftover(c: Component, b: Bundle, k: Key, slot: Slot): Slot
  {
    var left := Leftover(c, b);
    if left.Some? && left.value.key == k then Some(left.value.obj) else slot
  }

  lemma OwnServicePrefix(who: Who, c: Component, x: Item)
    requires OwnItem(who, c, x, Service)
    ensures TeardownPrefix(who.name, c, x.key.name)
  {
    DecodeSound(Service, x.key.name);
    PrefixMeansComponent(who.name, c, Service, Decode(Service, x.key.name).value);
  }

  /** Where there was nothing before, there is nothing but the leftover after. */
  lemma RoundTripFromNothing(crd: bool, who: Who, c: Component, b: Bundle, k: Key)
    requires GoodBundle(who, c, b) && BaseNamed(who, c, b)
    ensures DisableAt(crd, who, c, k, EnableAt(crd, who, c, b, k, None)) == KeepLeftover(c, b, k, None)
  {
    if k.kind == Service && ItemFor(b.services, k).Some? {
      var x := ItemFor(b.services, k).value;
      assert OwnItem(who, c, x, Service);
      OwnServicePrefix(who, c, x);
    }
  }

  predicate WantsNothingAt(b: Bundle, k: Key)
  {
    && b.config.key != k && b.deployment.key != k && ItemFor(b.services, k).None?
    && (b.extra.Some? ==> b.extra.value.key != k) && (b.monitor.Some? ==> b.monitor.value.key != k)
    && (b.claim.Some? ==> b.claim.value.key != k) && (b.account.Some? ==> b.account.value.key != k)
  }

  lemma NothingWantedHere(who: Who, c: Component, b: Bundle, k: Key)
    requires GoodBundle(who, c, b) && NameOwner(k) != Some(Owner(who.ns, who.name, c))
    ensures WantsNothingAt(b, k) && (k.kind != Service ==> k != BaseKey(k.kind, who, c))
  {
    forall x | x in b.services ensures x.key != k { assert OwnItem(who, c, x, Service); }
    if k.kind != Service { DecodeGenerated(k.kind, Ident(who.name, c, "")); }
  }

  lemma RoundTripOther(crd: bool, who: Who, c: Component, b: Bundle, k: Key, slot: Slot)
    requires WantsNothingAt(b, k) && (k.kind != Service ==> k != BaseKey(k.kind, who, c))
    requires slot.Some? ==> (k.ns == who.ns ==> !Labelled(slot.value, who.name, c)) && !Hit(who, c, Service, ByPrefix, k, slot)
    ensures DisableAt(crd, who, c, k, EnableAt(crd, who, c, b, k, slot)) == slot
    ensures KeepLeftover(c, b, k, slot) == slot
  {
  }

  /** Enabling a component the cluster has no trace of and disabling it again restores the cluster,
      except for one ConfigMap each of UPF and MongoDB. */
  lemma EnableDisableRoundTrip(crd: bool, who: Who, c: Component, b: Bundle, s: Store, t: Store, u: Store)
    requires GoodBundle(who, c, b) && BaseNamed(who, c, b) && Untouched(who, c, s)
    requires Completed(EnablePlan(crd, who, c, b), s, t) && Completed(DisablePlan(crd, who, c), t, u)
    ensures u == match Leftover(c, b) case None => s case Some(x) => s[x.key := x.obj]
  {
    var v := match Leftover(c, b) case None => s case Some(x) => s[x.key := x.obj];
    forall k ensures At(u, k) == At(v, k) {
      EnablePlanAt(crd, who, c, b, k, At(s, k));
      DisablePlanAt(crd, who, c, k, At(t, k));
      assert At(t, k) == EnableAt(crd, who, c, b, k, At(s, k));
      if k !in s {
        RoundTripFromNothing(crd, who, c, b, k);
      } else {
        NothingWantedHere(who, c, b, k);
        RoundTripOther(crd, who, c, b, k, At(s, k));
      }
    }
    StoresEqual(u, v);
  }

  // ----- Ownership -----

  /** Objects that no action of the CR may change, whatever succeeds or fails: without its owner UID,
      and, for the kinds deleted by listing, without both of its labels. */
  predicate Protected(who: Who, k: Key, o: Obj)
  {
    && !HasOwner(o, who.uid)
    && (Swept(k.kind) && k.ns == who.ns ==> forall c :: !Labelled(o, who.name, c))
  }

  lemma ProtectedFromAction(a: Action, k: Key, o: Obj)
    requires Disciplined(a) && Protected(a.who, k, o)
    ensures Effect(a, k, Some(o)) == Some(o)
  {
  }

  lemma {:induction false} ProtectedFromPlan(who: Who, p: Actions, k: Key, o: Obj, after: Slot)
    requires forall a :: a in p ==> a.who == who && Disciplined(a)
    requires Protected(who, k, o) && Reachable(p, k, Some(o), after)
    ensures after == Some(o)
  {
    if p != [] {
      assert p[0] in p;
      ProtectedFromAction(p[0], k, o);
      ProtectedFromPlan(who, p[1..], k, o, after);
    }
  }
}
