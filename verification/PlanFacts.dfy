/** The plan of a pass is coherent: every action keeps to its component's names and labels. */
module PlanFacts {
  import opened Text
  import opened Model
  import opened Names
  import opened Resources
  import opened Compare
  import opened Plan
  import opened Coherence

  /** The objects an enabled component wants. */
  ghost predicate Wanted(b: Bundle, x: Item)
  {
    || b.extra == Some(x) || x == b.config || x == b.deployment || x in b.services
    || b.monitor == Some(x) || b.claim == Some(x) || b.account == Some(x)
  }

  /** Named, labelled and owned for one component of one CR, with no annotations. */
  predicate OwnItem(who: Who, c: Component, x: Item, kind: Kind)
  {
    && x.key.kind == kind && x.key.ns == who.ns
    && NameOwner(x.key) == Some(Owner(who.ns, who.name, c))
    && LabelOwner(x.key, x.obj) == Some(Owner(who.ns, who.name, c))
    && x.obj.owners == [who.uid] && x.obj.annotations == map[]
    && BodyKind(x.obj.body) == kind
  }

  predicate OwnOption(who: Who, c: Component, x: Option<Item>, kind: Kind)
  {
    x.Some? ==> OwnItem(who, c, x.value, kind)
  }

  predicate KeysDistinct(xs: seq<Item>)
  {
    forall i, j :: 0 <= i < |xs| && 0 <= j < |xs| && xs[i].key == xs[j].key ==> i == j
  }

  predicate GoodBundle(who: Who, c: Component, b: Bundle)
  {
    && OwnOption(who, c, b.extra, ConfigMap) && OwnItem(who, c, b.config, ConfigMap)
    && (b.extra.Some? ==> b.extra.value.key != b.config.key)
    && OwnItem(who, c, b.deployment, Deployment)
    && (forall x :: x in b.services ==> OwnItem(who, c, x, Service)) && KeysDistinct(b.services)
    && OwnOption(who, c, b.monitor, ServiceMonitor) && OwnOption(who, c, b.claim, Claim)
    && OwnOption(who, c, b.account, ServiceAccount)
  }

  predicate GoodDesired(d: Desired)
  {
    forall c :: c in d.bundles ==> GoodBundle(d.who, c, d.bundles[c])
  }

  // ----- Generated bundles are good -----

  lemma GeneratedItem(who: Who, c: Component, x: Item, part: string)
    requires ValidIdent(x.key.kind, Ident(who.name, c, part))
    requires x.key.ns == who.ns && x.key.name == GeneratedName(Ident(who.name, c, part))
    requires Labelled(x.obj, who.name, c) && x.obj.owners == [who.uid] && x.obj.annotations == map[]
    requires BodyKind(x.obj.body) == x.key.kind
    ensures OwnItem(who, c, x, x.key.kind)
  {
    DecodeGenerated(x.key.kind, Ident(who.name, c, part));
    LabelledMeansOwner(x.key, x.obj, who.name, c);
  }

  predicate ProtocolsDistinct(es: seq<Exposed>)
  {
    && (forall i :: 0 <= i < |es| ==> Protocol(es[i].protocol))
    && (forall i, j :: 0 <= i < |es| && 0 <= j < |es| && es[i].protocol == es[j].protocol ==> i == j)
  }

  lemma ExposedDistinct(r: Core, c: Component)
    ensures ProtocolsDistinct(ExposedBy(r, c))
  {
    assert "gtpc"[3] == 'c' && "gtpu"[3] == 'u' && "pfcp"[0] == 'p' && "ngap"[0] == 'n'
      && "gtpc"[0] == 'g' && "gtpu"[0] == 'g';
  }

  lemma ServiceKeysDistinct(who: Who, c: Component, es: seq<Exposed>)
    requires ProtocolsDistinct(es)
    ensures KeysDistinct(CreateServices(who, c, es))
  {
    var xs := CreateServices(who, c, es);
    forall i, j | 0 <= i < |xs| && 0 <= j < |xs| && xs[i].key == xs[j].key ensures i == j {
      ConcatCancels(BaseName(who.name, c) + "-", es[i].protocol, es[j].protocol);
    }
  }

  lemma ServicesAreGood(r: Core, c: Component, x: Item)
    requires x in ServicesOf(r, c)
    ensures OwnItem(r.who, c, x, Service)
  {
    if c == MongoDB {
      GeneratedItem(r.who, c, x, "");
    } else {
      ExposedDistinct(r, c);
      var es := ExposedBy(r, c);
      var i :| 0 <= i < |es| && x == CreateService(r.who, c, es[i]);
      ProtocolIsSimple(es[i].protocol);
      GeneratedItem(r.who, c, x, es[i].protocol);
    }
  }

  lemma ConfigIsGood(who: Who, c: Component, data: Data)
    ensures OwnItem(who, c, Item(MainConfigKey(who, c), Generated(who, OwnLabels(who.name, c), ConfigBody(data))), ConfigMap)
  {
    GeneratedItem(who, c, Item(MainConfigKey(who, c), Generated(who, OwnLabels(who.name, c), ConfigBody(data))),
                  if c == MongoDB then "common-scripts" else "");
  }

  lemma DeploymentIsGood(who: Who, c: Component, d: DeploymentSpec)
    ensures OwnItem(who, c, Item(BaseKey(Deployment, who, c), Generated(who, OwnLabels(who.name, c), DeploymentBody(d))), Deployment)
  {
    GeneratedItem(who, c, Item(BaseKey(Deployment, who, c), Generated(who, OwnLabels(who.name, c), DeploymentBody(d))), "");
  }

  lemma MainItemsAreGood(w: World, r: Resource, c: Component)
    ensures OwnItem(r.core.who, c, MainConfig(w, r.core, c), ConfigMap)
    ensures OwnItem(r.core.who, c, MainDeployment(w, r, c), Deployment)
  {
    ConfigIsGood(r.core.who, c, w.data(r.core, c));
    DeploymentIsGood(r.core.who, c, DeploymentOf(w, r, c));
  }

  lemma OptionalItemsAreGood(r: Core, c: Component)
    ensures OwnOption(r.who, c, MonitorOf(r, c), ServiceMonitor)
    ensures OwnOption(r.who, c, ClaimOf(r, c), Claim)
    ensures OwnOption(r.who, c, AccountOf(r, c), ServiceAccount)
  {
    GeneratedItem(r.who, c, CreateMonitor(r.who, c), "");
    GeneratedItem(r.who, MongoDB, CreateClaim(r.who), "");
    GeneratedItem(r.who, c, CreateAccount(r.who, c), "");
  }

  lemma EntrypointIsGood(r: Core)
    ensures OwnItem(r.who, UPF, EntrypointConfig(r), ConfigMap)
    ensures EntrypointKey(r.who) != MainConfigKey(r.who, UPF)
  {
    GeneratedItem(r.who, UPF, EntrypointConfig(r), "entrypoint");
    assert |ServiceName(r.who.name, UPF, "entrypoint")| > |BaseName(r.who.name, UPF)|;
  }

  lemma ServiceSetIsGood(r: Core, c: Component)
    ensures (forall x :: x in ServicesOf(r, c) ==> OwnItem(r.who, c, x, Service)) && KeysDistinct(ServicesOf(r, c))
  {
    forall x | x in ServicesOf(r, c) ensures OwnItem(r.who, c, x, Service) { ServicesAreGood(r, c, x); }
    ExposedDistinct(r, c);
    ServiceKeysDistinct(r.who, c, ExposedBy(r, c));
  }

  lemma BundleParts(w: World, r: Resource, c: Component)
    ensures var b := BundleOf(w, r, c);
      && b.services == ServicesOf(r.core, c) && b.monitor == MonitorOf(r.core, c)
      && b.claim == ClaimOf(r.core, c) && b.account == AccountOf(r.core, c)
  {
  }

  lemma BundleIsGood(w: World, r: Resource, c: Component)
    ensures GoodBundle(r.core.who, c, BundleOf(w, r, c))
  {
    MainItemsAreGood(w, r, c);
    OptionalItemsAreGood(r.core, c);
    if c == UPF { EntrypointIsGood(r.core); }
    ServiceSetIsGood(r.core, c);
  }

  lemma DesiredWho(w: World, r: Resource)
    ensures DesiredOf(w, r).who == r.core.who
  {
  }

  lemma EntryOfDesired(w: World, r: Resource, bundles: map<Component, Bundle>, c: Component)
    requires bundles == map o: Component | Enabled(r.core, o) :: BundleOf(w, r, o)
    ensures (c in bundles <==> Enabled(r.core, c)) && (c in bundles ==> bundles[c] == BundleOf(w, r, c))
  {
  }

  lemma BundlesOfDesired(w: World, r: Resource, c: Component)
    ensures var d := DesiredOf(w, r);
      d.who == r.core.who && (c in d.monitored <==> w.crd) && (c in d.bundles <==> Enabled(r.core, c))
      && (c in d.bundles ==> d.bundles[c] == BundleOf(w, r, c))
  {
    EveryoneIsThere(c);
    EntryOfDesired(w, r, DesiredOf(w, r).bundles, c);
  }

  lemma DesiredIsGood(w: World, r: Resource)
    ensures GoodDesired(DesiredOf(w, r))
  {
    forall c | c in DesiredOf(w, r).bundles ensures GoodBundle(r.core.who, c, DesiredOf(w, r).bundles[c]) {
      BundleIsGood(w, r, c);
    }
  }

  // ----- Membership in a component's plan -----

  lemma {:induction false} InEnsureAll(who: Who, c: Component, xs: seq<Item>, a: Action)
    requires a in EnsureAll(who, c, xs)
    ensures exists x :: x in xs && a == EnsureItem(who, c, x)
  {
    if a == EnsureItem(who, c, xs[0]) {
      assert xs[0] in xs;
    } else {
      InEnsureAll(who, c, xs[1..], a);
    }
  }

  predicate Listing(a: Action, kind: Kind, mode: Mode)
  {
    a.op == Snap(kind, mode) || a.op == Sweep(kind, mode)
  }

  /** What an action of an enabled component can be. */
  ghost predicate EnableAction(b: Bundle, a: Action)
  {
    || (a.op.Ensure? && Wanted(b, Item(a.op.key, a.op.want)))
    || Listing(a, Service, ByLabel(NamesOf(b.services)))
    || (b.monitor.None? && Listing(a, ServiceMonitor, ByLabel({})))
    || (b.account.None? && Listing(a, ServiceAccount, ByLabel({})))
  }

  predicate DisableAction(who: Who, c: Component, a: Action)
  {
    || (a.op.DropOwned? && a.op.key.kind != Service && a.op.key == BaseKey(a.op.key.kind, who, c))
    || Listing(a, Service, ByPrefix)
  }

  lemma InEnablePlan(crd: bool, who: Who, c: Component, b: Bundle, a: Action)
    requires a in EnablePlan(crd, who, c, b)
    ensures a.who == who && a.comp == c && EnableAction(b, a)
  {
    if a in ConfigPlan(who, c, b) {
    } else if a in ServicePlan(who, c, b.services) {
      if a in EnsureAll(who, c, b.services) { InEnsureAll(who, c, b.services, a); }
    } else if a in MonitorPlan(crd, who, c, b) {
    } else if a in EnsureOpt(who, c, b.claim) {
    } else {
      assert a in EnsureOrPurge(who, c, ServiceAccount, b.account);
    }
  }

  lemma InDisablePlan(crd: bool, who: Who, c: Component, a: Action)
    requires a in DisablePlan(crd, who, c)
    ensures a.who == who && a.comp == c && DisableAction(who, c, a)
  {
  }

  /** What an action of a pass can be. */
  ghost predicate PassAction(d: Desired, a: Action)
  {
    && a.who == d.who
    && if a.comp in d.bundles then EnableAction(d.bundles[a.comp], a) else DisableAction(d.who, a.comp, a)
  }

  lemma InComponentPlan(d: Desired, c: Component, a: Action)
    requires a in ComponentPlan(d, c)
    ensures a.comp == c && PassAction(d, a)
  {
    if c in d.bundles { InEnablePlan(c in d.monitored, d.who, c, d.bundles[c], a); } else { InDisablePlan(c in d.monitored, d.who, c, a); }
  }

  lemma {:induction false} InPlanOver(d: Desired, cs: seq<Component>, a: Action)
    requires a in PlanOver(d, cs)
    ensures a.comp in cs && PassAction(d, a)
  {
    if a in ComponentPlan(d, cs[0]) {
      InComponentPlan(d, cs[0], a);
    } else {
      InPlanOver(d, cs[1..], a);
    }
  }

  // ----- Discipline and compatibility -----

  lemma WantedIsOwn(who: Who, c: Component, b: Bundle, x: Item)
    requires GoodBundle(who, c, b) && Wanted(b, x)
    ensures OwnItem(who, c, x, x.key.kind)
  {
  }

  /** A component wants at most one object under a key. */
  lemma WantedUnique(who: Who, c: Component, b: Bundle, x: Item, y: Item)
    requires GoodBundle(who, c, b) && Wanted(b, x) && Wanted(b, y) && x.key == y.key
    ensures x == y
  {
  }

  lemma EnableDisciplined(who: Who, c: Component, b: Bundle, a: Action)
    requires GoodBundle(who, c, b) && a.who == who && a.comp == c && EnableAction(b, a)
    ensures Disciplined(a)
  {
    if a.op.Ensure? { WantedIsOwn(who, c, b, Item(a.op.key, a.op.want)); }
  }

  lemma DisableDisciplined(who: Who, c: Component, a: Action)
    requires a.who == who && a.comp == c && DisableAction(who, c, a)
    ensures Disciplined(a)
  {
    if a.op.DropOwned? { DecodeGenerated(a.op.key.kind, Ident(who.name, c, "")); }
  }

  lemma PassDisciplined(d: Desired, a: Action)
    requires GoodDesired(d) && PassAction(d, a)
    ensures Disciplined(a)
  {
    if a.comp in d.bundles {
      EnableDisciplined(d.who, a.comp, d.bundles[a.comp], a);
    } else {
      DisableDisciplined(d.who, a.comp, a);
    }
  }

  lemma WantedVersusListing(who: Who, c: Component, b: Bundle, x: Item, a: Action)
    requires GoodBundle(who, c, b) && Wanted(b, x) && EnableAction(b, a) && (a.op.Snap? || a.op.Sweep?)
    ensures x.key.kind != a.op.kind || (a.op.mode.ByLabel? && x.key.name in a.op.mode.keep)
  {
  }

  lemma WantedCompatible(who: Who, c: Component, b: Bundle, x: Action, y: Action)
    requires GoodBundle(who, c, b) && x.op.Ensure? && Wanted(b, Item(x.op.key, x.op.want)) && EnableAction(b, y)
    ensures Compatible(x, y)
  {
    var item := Item(x.op.key, x.op.want);
    if y.op.Ensure? {
      if x.op.key == y.op.key { WantedUnique(who, c, b, item, Item(y.op.key, y.op.want)); }
    } else {
      WantedVersusListing(who, c, b, item, y);
    }
  }

  lemma PassCompatible(d: Desired, a: Action, b: Action)
    requires GoodDesired(d) && PassAction(d, a) && PassAction(d, b) && a.comp == b.comp
    ensures Compatible(a, b)
  {
    if a.comp in d.bundles && a.op.Ensure? { WantedCompatible(d.who, a.comp, d.bundles[a.comp], a, b); }
  }

  lemma PassCoherent(crs: set<Who>, d: Desired)
    requires d.who in crs && GoodDesired(d)
    ensures Coherent(crs, PassPlan(d))
  {
    var p := PassPlan(d);
    forall a | a in p ensures a.who == d.who && PassAction(d, a) && Disciplined(a) {
      InPlanOver(d, Order(), a);
      PassDisciplined(d, a);
    }
    forall a, b | a in p && b in p && SameOwner(a, b) ensures Compatible(a, b) {
      PassCompatible(d, a, b);
    }
  }
}
