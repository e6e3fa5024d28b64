/** Any history of spec edits: what an earlier spec generated is replaced by what the present one generates. */
module History {
  import opened Text
  import opened Model
  import opened Names
  import opened Resources
  import opened Compare
  import opened Plan
  import opened Coherence
  import opened PlanFacts
  import opened Outcomes
  import opened Drift
  import opened Runs

  // ----- Ports -----

  /** The number and transport behind a service protocol, everywhere the same. */
  function PortOf(protocol: string): Port
  {
    if protocol == "sbi" then Port("sbi", 7777, TCP)
    else if protocol == "ngap" then Port("ngap", 38412, SCTP)
    else if protocol == "metrics" then Port("metrics", 9090, TCP)
    else if protocol == "gtpc" then Port("gtpc", 2123, UDP)
    else if protocol == "gtpu" then Port("gtpu", 2152, UDP)
    else if protocol == "pfcp" then Port("pfcp", 8805, UDP)
    else Port("http", 9999, TCP)
  }

  lemma ProtocolsDiffer()
    ensures "sbi" != "ngap" && "sbi" != "metrics" && "sbi" != "gtpc" && "sbi" != "gtpu" && "sbi" != "pfcp"
    ensures "ngap" != "gtpc" && "ngap" != "gtpu" && "ngap" != "pfcp" && "gtpc" != "gtpu" && "gtpc" != "pfcp" && "gtpu" != "pfcp"
  {
    assert "ngap"[0] == 'n' && "gtpc"[0] == 'g' && "gtpu"[0] == 'g' && "pfcp"[0] == 'p' && "gtpc"[3] == 'c' && "gtpu"[3] == 'u';
  }

  lemma ExposedPort(r: Core, c: Component, e: Exposed)
    requires e in ExposedBy(r, c)
    ensures PortOf(e.protocol) == Port(e.protocol, e.number, e.l4) && PortOf(e.protocol) in ContainerPorts(r, c)
  {
    ProtocolsDiffer();
  }

  // ----- A generated object replaces an earlier generated one -----

  predicate DriftUnseen(want: Obj, found: Obj)
    requires want.body.DeploymentBody? && found.body.DeploymentBody?
  {
    && DeploymentEqual(want.labels, want.body.deployment, found.labels, found.body.deployment)
    && HashOf(found.body.deployment) == HashOf(want.body.deployment)
  }

  /** When reconciling `found` towards `want` ends exactly in `want`. */
  lemma ReconciledIsWant(who: Who, k: Key, want: Obj, found: Obj)
    requires want.owners == [who.uid] && found == want.(body := found.body)
    requires BodyKind(want.body) == BodyKind(found.body)
    requires want.body.ServiceBody? ==> want.body.service.ports == found.body.service.ports
    requires want.body.MonitorBody? || want.body.ClaimBody? || want.body.AccountBody? ==> want.body == found.body
    requires want.body.DeploymentBody? ==> !IsUpf(who, k)
    requires want.body.DeploymentBody? ==>
      DriftUnseen(want, found) ==> want.body == found.body
    ensures Reconciled(who, k, want, found) == want
  {
  }

  lemma ServiceReplaces(a: Core, b: Core, c: Component, x: Item, y: Item)
    requires a.who == b.who && x in ServicesOf(a, c) && y in ServicesOf(b, c) && x.key == y.key
    ensures Reconciled(a.who, x.key, y.obj, x.obj) == y.obj
  {
    var who := a.who;
    if c != MongoDB {
      var i :| 0 <= i < |ExposedBy(a, c)| && x == CreateService(who, c, ExposedBy(a, c)[i]);
      var j :| 0 <= j < |ExposedBy(b, c)| && y == CreateService(who, c, ExposedBy(b, c)[j]);
      var e, f := ExposedBy(a, c)[i], ExposedBy(b, c)[j];
      ConcatCancels(BaseName(who.name, c) + "-", e.protocol, f.protocol);
      ExposedPort(a, c, e);
      ExposedPort(b, c, f);
      SameProtocolReplaces(who, c, e, f);
    }
  }

  lemma SameProtocolReplaces(who: Who, c: Component, e: Exposed, f: Exposed)
    requires e == f.(serviceType := e.serviceType)
    ensures var x, y := CreateService(who, c, e), CreateService(who, c, f);
      Reconciled(who, x.key, y.obj, x.obj) == y.obj
  {
    var x, y := CreateService(who, c, e), CreateService(who, c, f);
    ReconciledIsWant(who, x.key, y.obj, x.obj);
  }

  lemma SpecReplaces(who: Who, k: Key, labels: Labels, d: DeploymentSpec, e: DeploymentSpec)
    requires !IsUpf(who, k)
    requires DeploymentEqual(labels, d, labels, e) && HashOf(e) == HashOf(d) ==> d == e
    ensures var x, y := Generated(who, labels, DeploymentBody(e)), Generated(who, labels, DeploymentBody(d));
      Reconciled(who, k, y, x) == y
  {
    ReconciledIsWant(who, k, Generated(who, labels, DeploymentBody(d)), Generated(who, labels, DeploymentBody(e)));
  }

  lemma DriftComplete(w: World, a: Resource, b: Resource, c: Component, labels: Labels, d: DeploymentSpec, e: DeploymentSpec)
    requires Faithful(w) && a.core.who == b.core.who && c != UPF && c != WebUI
    requires d == DeploymentOf(w, b, c) && e == DeploymentOf(w, a, c)
    ensures DeploymentEqual(labels, d, labels, e) && HashOf(e) == HashOf(d) ==> d == e
  {
    if DeploymentEqual(labels, d, labels, e) && HashOf(e) == HashOf(d) { DriftCheckComplete(w, b, a, c, labels); }
  }

  lemma DeploymentReplaces(w: World, a: Resource, b: Resource, c: Component)
    requires Faithful(w) && a.core.who == b.core.who && c != UPF && c != WebUI
    ensures var x, y := MainDeployment(w, a, c), MainDeployment(w, b, c);
      Reconciled(a.core.who, x.key, y.obj, x.obj) == y.obj
  {
    var who, labels := a.core.who, OwnLabels(a.core.who.name, c);
    var d, e := DeploymentOf(w, b, c), DeploymentOf(w, a, c);
    BaseIsUpf(who, c);
    DriftComplete(w, a, b, c, labels, d, e);
    SpecReplaces(who, BaseKey(Deployment, who, c), labels, d, e);
  }

  lemma DataReplaces(who: Who, k: Key, labels: Labels, x: Data, y: Data)
    ensures Reconciled(who, k, Generated(who, labels, ConfigBody(y)), Generated(who, labels, ConfigBody(x)))
         == Generated(who, labels, ConfigBody(y))
  {
    ReconciledIsWant(who, k, Generated(who, labels, ConfigBody(y)), Generated(who, labels, ConfigBody(x)));
  }

  lemma ConfigReplaces(w: World, a: Core, b: Core, c: Component)
    requires a.who == b.who
    ensures Reconciled(a.who, MainConfigKey(a.who, c), MainConfig(w, b, c).obj, MainConfig(w, a, c).obj) == MainConfig(w, b, c).obj
  {
    DataReplaces(a.who, MainConfigKey(a.who, c), OwnLabels(a.who.name, c), w.data(a, c), w.data(b, c));
  }

  lemma SelfReplaces(who: Who, k: Key, x: Obj)
    requires !x.body.DeploymentBody?
    ensures Reconciled(who, k, x, x) == x
  {
  }

  /** The object that a spec generates under a key, whether its component is enabled or not. */
  function Made(w: World, r: Resource, c: Component, k: Key): Slot
  {
    ObjOf(ItemOf(w.crd, BundleOf(w, r, c), k))
  }

  lemma MadeConfig(w: World, r: Resource, c: Component, k: Key, x: Obj)
    requires Made(w, r, c, k) == Some(x) && k.kind == ConfigMap && Tracked(r.core.who, c, k)
    ensures x == MainConfig(w, r.core, c).obj && k == MainConfigKey(r.core.who, c)
  {
    ExtraNamesDiffer(r.core.who, c);
  }

  lemma MadeDeployment(w: World, r: Resource, c: Component)
    ensures Made(w, r, c, BaseKey(Deployment, r.core.who, c)) == Some(MainDeployment(w, r, c).obj)
  {
  }

  /** Where a bundle keeps what it wants, kind by kind. */
  lemma WhereWanted(crd: bool, b: Bundle, k: Key, x: Obj)
    requires ObjOf(ItemOf(crd, b, k)) == Some(x)
    requires (b.monitor.Some? ==> b.monitor.value.key.kind == ServiceMonitor) && (b.claim.Some? ==> b.claim.value.key.kind == Claim)
    ensures k.kind == Service ==> Item(k, x) in b.services
    ensures k.kind == ServiceMonitor ==> b.monitor == Some(Item(k, x))
    ensures k.kind == Claim ==> b.claim == Some(Item(k, x))
    ensures k.kind == ServiceAccount ==> b.account == Some(Item(k, x))
  {
  }

  lemma MadeOf(w: World, r: Resource, c: Component, k: Key) returns (b: Bundle)
    ensures Made(w, r, c, k) == ObjOf(ItemOf(w.crd, b, k))
    ensures b.services == ServicesOf(r.core, c) && b.monitor == MonitorOf(r.core, c)
    ensures b.claim == ClaimOf(r.core, c) && b.account == AccountOf(r.core, c)
  {
    b := BundleOf(w, r, c);
  }

  lemma MadeService(w: World, r: Resource, c: Component, k: Key, x: Obj)
    requires Made(w, r, c, k) == Some(x) && k.kind == Service
    ensures Item(k, x) in ServicesOf(r.core, c)
  {
    var b := MadeOf(w, r, c, k);
    WhereWanted(w.crd, b, k, x);
  }

  lemma MadeMonitor(w: World, r: Resource, c: Component, k: Key, x: Obj)
    requires Made(w, r, c, k) == Some(x) && k.kind == ServiceMonitor
    ensures Item(k, x) == CreateMonitor(r.core.who, c)
  {
    var b := MadeOf(w, r, c, k);
    WhereWanted(w.crd, b, k, x);
  }

  lemma MadeClaim(w: World, r: Resource, c: Component, k: Key, x: Obj)
    requires Made(w, r, c, k) == Some(x) && k.kind == Claim
    ensures Item(k, x) == CreateClaim(r.core.who)
  {
    var b := MadeOf(w, r, c, k);
    WhereWanted(w.crd, b, k, x);
  }

  lemma MadeAccount(w: World, r: Resource, c: Component, k: Key, x: Obj)
    requires Made(w, r, c, k) == Some(x) && k.kind == ServiceAccount
    ensures Item(k, x) == CreateAccount(r.core.who, c)
  {
    var b := MadeOf(w, r, c, k);
    WhereWanted(w.crd, b, k, x);
  }

  /** The object of a kind whose generated objects are the same for every spec. */
  function ConstantItem(who: Who, c: Component, kind: Kind): Item
  {
    match kind
    case Claim => CreateClaim(who)
    case ServiceAccount => CreateAccount(who, c)
    case _ => CreateMonitor(who, c)
  }

  lemma MadeConstant(w: World, r: Resource, c: Component, k: Key, x: Obj)
    requires Made(w, r, c, k) == Some(x) && k.kind in {ServiceMonitor, Claim, ServiceAccount}
    ensures Item(k, x) == ConstantItem(r.core.who, c, k.kind)
  {
    match k.kind
    case ServiceMonitor => MadeMonitor(w, r, c, k, x);
    case Claim => MadeClaim(w, r, c, k, x);
    case _ => MadeAccount(w, r, c, k, x);
  }

  lemma ConfigMadeReplaces(w: World, a: Resource, b: Resource, c: Component, k: Key, x: Obj, y: Obj)
    requires a.core.who == b.core.who && Tracked(a.core.who, c, k) && k.kind == ConfigMap
    requires Made(w, a, c, k) == Some(x) && Made(w, b, c, k) == Some(y)
    ensures Reconciled(a.core.who, k, y, x) == y
  {
    MadeConfig(w, a, c, k, x);
    MadeConfig(w, b, c, k, y);
    ConfigReplaces(w, a.core, b.core, c);
  }

  lemma DeploymentMadeReplaces(w: World, a: Resource, b: Resource, c: Component, k: Key, x: Obj, y: Obj)
    requires Faithful(w) && a.core.who == b.core.who && Tracked(a.core.who, c, k) && k.kind == Deployment
    requires Made(w, a, c, k) == Some(x) && Made(w, b, c, k) == Some(y)
    ensures Reconciled(a.core.who, k, y, x) == y
  {
    MadeDeployment(w, a, c);
    MadeDeployment(w, b, c);
    DeploymentReplaces(w, a, b, c);
  }

  lemma ConstantMade(w: World, a: Resource, b: Resource, c: Component, k: Key, x: Obj, y: Obj)
    requires a.core.who == b.core.who && k.kind in {ServiceMonitor, Claim, ServiceAccount}
    requires Made(w, a, c, k) == Some(x) && Made(w, b, c, k) == Some(y)
    ensures x == y && !x.body.DeploymentBody?
  {
    MadeConstant(w, a, c, k, x);
    MadeConstant(w, b, c, k, y);
  }

  /** Under a tracked key, what an earlier spec generated becomes what the new spec generates. */
  lemma GeneratedReplaces(w: World, a: Resource, b: Resource, c: Component, k: Key, x: Obj, y: Obj)
    requires Faithful(w) && a.core.who == b.core.who && Tracked(a.core.who, c, k)
    requires Made(w, a, c, k) == Some(x) && Made(w, b, c, k) == Some(y)
    ensures Reconciled(a.core.who, k, y, x) == y
  {
    match k.kind {
      case ConfigMap => ConfigMadeReplaces(w, a, b, c, k, x, y);
      case Deployment => DeploymentMadeReplaces(w, a, b, c, k, x, y);
      case Service =>
        MadeService(w, a, c, k, x);
        MadeService(w, b, c, k, y);
        ServiceReplaces(a.core, b.core, c, Item(k, x), Item(k, y));
      case _ =>
        ConstantMade(w, a, b, c, k, x, y);
        SelfReplaces(a.core.who, k, x);
    }
  }

  // ----- The planner of a cluster -----

  /** What a spec asks to be stored under a key of component `c`. */
  function Target(w: World, r: Resource, c: Component, k: Key): Slot
  {
    if Enabled(r.core, c) then ObjOf(ItemOf(w.crd, BundleOf(w, r, c), k)) else None
  }

  /** What the builders make of every resource. */
  function Builders(w: World): Planner
  {
    (r: Resource) => DesiredOf(w, r)
  }

  lemma BuildersAreProper(w: World)
    ensures Proper(Builders(w))
  {
    forall r: Resource ensures GoodDesired(Builders(w)(r)) && Builders(w)(r).who == r.core.who {
      DesiredIsGood(w, r);
      DesiredWho(w, r);
    }
  }

  lemma WantsTarget(w: World, r: Resource, c: Component, k: Key)
    ensures WantsAt(DesiredOf(w, r), c, k) == Target(w, r, c, k)
  {
    BundlesOfDesired(w, r, c);
  }

  lemma DesiredIsBaseNamed(w: World, r: Resource, c: Component)
    ensures var d := DesiredOf(w, r); c in d.bundles ==> BaseNamed(d.who, c, d.bundles[c])
  {
    BundlesOfDesired(w, r, c);
    GeneratedAreBaseNamed(w, r, c);
  }

  // ----- The family of an object -----

  /** Some spec of the CR generates the object under the key. */
  ghost predicate Member(w: World, who: Who, c: Component, k: Key, x: Obj)
  {
    exists a: Resource :: a.core.who == who && Made(w, a, c, k) == Some(x)
  }

  /** What the specs of one CR generate under a key. */
  ghost function Family(w: World, who: Who, c: Component, k: Key): Obj -> bool
  {
    (x: Obj) => Member(w, who, c, k, x)
  }

  /** Tracked keys, and the Deployment of WebUI: what an earlier spec generated stays or is replaced. */
  predicate Whole(who: Who, c: Component, k: Key)
  {
    Tracked(who, c, k) || (c == WebUI && k == BaseKey(Deployment, who, c))
  }

  lemma WholeOwner(who: Who, c: Component, k: Key)
    requires Whole(who, c, k)
    ensures NameOwner(k) == Some(Owner(who.ns, who.name, c))
  {
    if Tracked(who, c, k) { TrackedOwner(who, c, k); } else { DecodeGenerated(k.kind, Ident(who.name, c, "")); }
  }

  /** Under a tracked key the new object replaces the old one; WebUI's Deployment is replaced or left. */
  lemma ReplacesOrLeaves(w: World, a: Resource, b: Resource, c: Component, k: Key, x: Obj, y: Obj)
    requires Faithful(w) && a.core.who == b.core.who && Whole(a.core.who, c, k)
    requires Made(w, a, c, k) == Some(x) && Made(w, b, c, k) == Some(y)
    ensures Reconciled(a.core.who, k, y, x) == y || Reconciled(a.core.who, k, y, x) == x
  {
    if Tracked(a.core.who, c, k) { GeneratedReplaces(w, a, b, c, k, x, y); } else { WebuiMadeReplaces(w, a, b, k, x, y); }
  }

  lemma WebuiMadeReplaces(w: World, a: Resource, b: Resource, k: Key, x: Obj, y: Obj)
    requires Renders(w) && a.core.who == b.core.who && k == BaseKey(Deployment, a.core.who, WebUI)
    requires Made(w, a, WebUI, k) == Some(x) && Made(w, b, WebUI, k) == Some(y)
    ensures Reconciled(a.core.who, k, y, x) == if SameSeen(a.core, b.core) then x else y
  {
    MadeDeployment(w, a, WebUI);
    MadeDeployment(w, b, WebUI);
    WebuiReplacesOrLeaves(w, a, b, k);
  }

  lemma DriftDecides(who: Who, k: Key, labels: Labels, d: DeploymentSpec, e: DeploymentSpec)
    requires !IsUpf(who, k)
    ensures var x, y := Generated(who, labels, DeploymentBody(e)), Generated(who, labels, DeploymentBody(d));
      Reconciled(who, k, y, x) == if DeploymentEqual(labels, d, labels, e) && HashOf(e) == HashOf(d) then x else y
  {
  }

  lemma WebuiReplacesOrLeaves(w: World, a: Resource, b: Resource, k: Key)
    requires Renders(w) && a.core.who == b.core.who && k == BaseKey(Deployment, a.core.who, WebUI)
    ensures var x, y := MainDeployment(w, a, WebUI).obj, MainDeployment(w, b, WebUI).obj;
      Reconciled(a.core.who, k, y, x) == if SameSeen(a.core, b.core) then x else y
  {
    var labels := OwnLabels(a.core.who.name, WebUI);
    BaseIsUpf(a.core.who, WebUI);
    WebuiDriftSeen(w, a, b, labels);
    DriftDecides(a.core.who, k, labels, DeploymentOf(w, b, WebUI), DeploymentOf(w, a, WebUI));
  }

  lemma MadeByBundle(w: World, a: Resource, c: Component, k: Key, x: Obj)
    requires Made(w, a, c, k) == Some(x)
    ensures OfBundle(w.crd, a.core.who, c, k, x)
  {
    BundleIsGood(w, a, c);
    GeneratedAreBaseNamed(w, a, c);
    ItemOfIsOwn(w.crd, a.core.who, c, BundleOf(w, a, c), k);
  }

  lemma MembersReplace(w: World, who: Who, c: Component, k: Key, x: Obj, y: Obj)
    requires Faithful(w) && Whole(who, c, k) && Member(w, who, c, k, x) && Member(w, who, c, k, y)
    ensures Reconciled(who, k, y, x) == y || Reconciled(who, k, y, x) == x
  {
    var a := MadeBy(w, who, c, k, x);
    var b := MadeBy(w, who, c, k, y);
    ReplacesOrLeaves(w, a, b, c, k, x, y);
  }

  lemma FamilyOfBundles(w: World, who: Who, c: Component, k: Key)
    ensures forall x :: Family(w, who, c, k)(x) ==> OfBundle(w.crd, who, c, k, x)
  {
    forall x | Family(w, who, c, k)(x) ensures OfBundle(w.crd, who, c, k, x) {
      var a: Resource :| a.core.who == who && Made(w, a, c, k) == Some(x);
      MadeByBundle(w, a, c, k, x);
    }
  }

  lemma FamilyReplaces(w: World, who: Who, c: Component, k: Key)
    requires Faithful(w) && Whole(who, c, k)
    ensures forall x, y :: Family(w, who, c, k)(x) && Family(w, who, c, k)(y) ==>
      Reconciled(who, k, y, x) == y || Reconciled(who, k, y, x) == x
  {
    forall x, y | Family(w, who, c, k)(x) && Family(w, who, c, k)(y)
      ensures Reconciled(who, k, y, x) == y || Reconciled(who, k, y, x) == x
    {
      MembersReplace(w, who, c, k, x, y);
    }
  }

  lemma FamilyClosed(w: World, who: Who, c: Component, k: Key)
    requires Faithful(w) && Whole(who, c, k)
    ensures Closed(w.crd, Family(w, who, c, k), who, c, k)
  {
    WholeOwner(who, c, k);
    FamilyOfBundles(w, who, c, k);
    FamilyReplaces(w, who, c, k);
  }

  lemma MadeBy(w: World, who: Who, c: Component, k: Key, x: Obj) returns (a: Resource)
    requires Member(w, who, c, k, x)
    ensures a.core.who == who && Made(w, a, c, k) == Some(x)
  {
    a :| a.core.who == who && Made(w, a, c, k) == Some(x);
  }

  lemma TrackedReplaces(w: World, who: Who, c: Component, k: Key, x: Obj, y: Obj)
    requires Faithful(w) && Tracked(who, c, k) && Member(w, who, c, k, x) && Member(w, who, c, k, y)
    ensures Reconciled(who, k, y, x) == y
  {
    var a := MadeBy(w, who, c, k, x);
    var b := MadeBy(w, who, c, k, y);
    GeneratedReplaces(w, a, b, c, k, x, y);
  }

  lemma TargetInFamily(w: World, r: Resource, c: Component, k: Key)
    ensures Within(Family(w, r.core.who, c, k), Target(w, r, c, k))
  {
    assert Target(w, r, c, k).Some? ==> Made(w, r, c, k) == Target(w, r, c, k);
  }

  lemma BuildersInFamily(w: World, who: Who, c: Component, k: Key)
    ensures WantsWithin(Builders(w), Family(w, who, c, k), who, c, k)
  {
    forall r: Resource | r.core.who == who ensures Within(Family(w, who, c, k), WantsAt(Builders(w)(r), c, k)) {
      BuilderInFamily(w, r, Builders(w)(r), c, k);
    }
  }

  lemma BuilderInFamily(w: World, r: Resource, d: Desired, c: Component, k: Key)
    requires d == DesiredOf(w, r)
    ensures Within(Family(w, r.core.who, c, k), WantsAt(d, c, k))
  {
    WantsTarget(w, r, c, k);
    TargetInFamily(w, r, c, k);
  }

  lemma BuildersFit(w: World, who: Who, c: Component, k: Key)
    requires Faithful(w) && Whole(who, c, k)
    ensures Proper(Builders(w)) && Closed(w.crd, Family(w, who, c, k), who, c, k)
    ensures WantsWithin(Builders(w), Family(w, who, c, k), who, c, k)
  {
    BuildersAreProper(w);
    FamilyClosed(w, who, c, k);
    BuildersInFamily(w, who, c, k);
  }

  // ----- Any history of spec edits -----

  /** Whatever specs came before, and whatever failed under them, there is nothing under a key, or what some
      spec of the CR generates there. */
  lemma HistoryKeepsFamily(w: World, who: Who, h: Log, c: Component, k: Key)
    requires Faithful(w) && Whole(who, c, k)
    requires Attempts(Builders(w), who, h) && Within(Family(w, who, c, k), At(First(h), k))
    ensures Within(Family(w, who, c, k), At(Last(h), k))
  {
    BuildersFit(w, who, c, k);
    HistoryStays(Builders(w), w.crd, Family(w, who, c, k), who, h, c, k);
  }

  lemma SettlesOnTarget(w: World, r: Resource, d: Desired, c: Component, k: Key, s: Store, t: Store)
    requires Faithful(w) && Tracked(d.who, c, k) && d == DesiredOf(w, r)
    requires Within(Family(w, d.who, c, k), At(s, k)) && Completed(PassPlan(d), s, t)
    ensures At(t, k) == Target(w, r, c, k)
  {
    var family := Family(w, d.who, c, k);
    DesiredIsGood(w, r);
    BundlesOfDesired(w, r, c);
    DesiredIsBaseNamed(w, r, c);
    FamilyClosed(w, d.who, c, k);
    WantsTarget(w, r, c, k);
    TargetInFamily(w, r, c, k);
    if At(s, k).Some? && Target(w, r, c, k).Some? {
      TrackedReplaces(w, d.who, c, k, At(s, k).value, Target(w, r, c, k).value);
    }
    Settles(family, d, c, k, s, t);
  }

  /** Whatever specs came before, and whatever failed under them: after one complete pass every tracked
      object is the one generated from the present spec, and there is none where the spec wants none.
      Nothing stale survives the cheap drift checks. */
  lemma HistoryIndependent(w: World, who: Who, h: Log, r: Resource, t: Store, c: Component, k: Key)
    requires Faithful(w) && Tracked(who, c, k)
    requires Attempts(Builders(w), who, h) && Within(Family(w, who, c, k), At(First(h), k))
    requires r.core.who == who && Done(Builders(w), r, Last(h), t)
    ensures At(t, k) == Target(w, r, c, k)
  {
    HistoryKeepsFamily(w, who, h, c, k);
    BundlesOfDesired(w, r, c);
    SettlesOnTarget(w, r, DesiredOf(w, r), c, k, Last(h), t);
  }
}
