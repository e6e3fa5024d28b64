/** How the generated and the stored objects refer to each other. */
module Wiring {
  import opened Text
  import opened Model
  import opened Names
  import opened Resources
  import opened Compare
  import opened Plan
  import opened PlanFacts
  import opened Outcomes
  import opened Drift
  import opened Runs
  import opened History
  import opened Lagging

  /** A label selector selects a set of labels. */
  predicate Selects(selector: Labels, labels: Labels)
  {
    forall k :: k in selector ==> k in labels && labels[k] == selector[k]
  }

  /** The port behind the target name of a service port. */
  predicate Reaches(p: ServicePort, ports: seq<Port>)
  {
    Port(p.target, p.number, p.l4) in ports
  }

  /** A service leads to a container port of the pods that it selects. */
  predicate ServiceWired(x: Obj, labels: Labels, pod: PodSpec)
  {
    && x.body.ServiceBody? && |x.body.service.ports| == 1 && |pod.containers| == 1
    && Selects(x.body.service.selector, labels)
    && Reaches(x.body.service.ports[0], pod.containers[0].ports)
  }

  lemma PodPorts(r: Core, c: Component)
    ensures |PodOf(r, c).containers| == 1 && PodOf(r, c).containers[0].ports == ContainerPorts(r, c)
  {
  }

  lemma ServicesAreWired(r: Core, c: Component, x: Item)
    requires x in ServicesOf(r, c)
    ensures ServiceWired(x.obj, PodLabels(r.who.name, c), PodOf(r, c))
  {
    PodPorts(r, c);
    if c != MongoDB {
      var es := ExposedBy(r, c);
      var i :| 0 <= i < |es| && x == CreateService(r.who, c, es[i]);
      ExposedPort(r, c, es[i]);
    }
  }

  predicate MountsConfig(p: PodSpec, name: string)
  {
    exists v :: v in p.volumes && v.ConfigVolume? && v.configMap == name
  }

  /** It mounts this ConfigMap and no other but `extra`. */
  predicate MountsOnly(p: PodSpec, name: string, extra: Option<string>)
  {
    MountsConfig(p, name) && forall v :: v in p.volumes && v.ConfigVolume? ==> v.configMap == name || Some(v.configMap) == extra
  }

  lemma UpfMounts(r: Core)
    ensures MountsOnly(UpfPod(r), MainConfigKey(r.who, UPF).name, Some(EntrypointKey(r.who).name))
  {
    assert UpfPod(r).volumes[0].configMap == MainConfigKey(r.who, UPF).name;
  }

  lemma MongoMounts(r: Core)
    ensures MountsOnly(MongoPod(r), MainConfigKey(r.who, MongoDB).name, None)
  {
    assert MongoPod(r).volumes[1].configMap == MainConfigKey(r.who, MongoDB).name;
  }

  lemma OneVolumeMounts(p: PodSpec, volume: string, name: string)
    requires p.volumes == [ConfigVolume(volume, name)]
    ensures MountsOnly(p, name, None)
  {
    assert p.volumes[0].configMap == name;
  }

  lemma OtherPodMounts(r: Core, c: Component)
    requires c != UPF
    ensures MountsOnly(PodOf(r, c), MainConfigKey(r.who, c).name, None)
  {
    if c == MongoDB {
      MongoMounts(r);
    } else {
      OneVolumeMounts(PodOf(r, c), if c == WebUI then "populate" else "config", BaseName(r.who.name, c));
    }
  }

  /** The pod mounts the ConfigMap that the pass reconciles before it, and no other but UPF's entrypoint. */
  lemma PodMountsItsConfig(r: Core, c: Component)
    ensures MountsConfig(PodOf(r, c), MainConfigKey(r.who, c).name)
    ensures forall v :: v in PodOf(r, c).volumes && v.ConfigVolume? ==>
      v.configMap == MainConfigKey(r.who, c).name || (c == UPF && v.configMap == EntrypointKey(r.who).name)
  {
    if c == UPF { UpfMounts(r); } else { OtherPodMounts(r, c); }
  }

  /** A ServiceMonitor looks at the services of its namespaces that its selector selects. */
  predicate Watches(m: MonitorSpec, k: Key, labels: Labels)
  {
    k.ns in m.namespaces && Selects(m.selector, labels)
  }

  /** A monitor watches the metrics service of its own instance and component, and no other generated
      service of any instance of any namespace. */
  lemma MonitorSelectsOwnMetrics(who: Who, c: Component, w: Who, d: Component, e: Exposed)
    ensures var m, x := CreateMonitor(who, c).obj.body.monitor, CreateService(w, d, e);
      Watches(m, x.key, x.obj.labels) <==> w.ns == who.ns && w.name == who.name && d == c && e.protocol == "metrics"
    ensures !Watches(CreateMonitor(who, c).obj.body.monitor, MongoService(w).key, MongoService(w).obj.labels)
  {
    var selector, labels := CreateMonitor(who, c).obj.body.monitor.selector, CreateService(w, d, e).obj.labels;
    assert selector == map[Instance := who.name, Name := Lower(c), Part := "metrics"];
    assert Part in selector && Part !in MongoService(w).obj.labels;
    assert Instance in selector && Name in selector;
    LowerIsSimple(c);
    LowerIsSimple(d);
    if e.protocol != "metrics" { assert Part !in labels; }
  }

  // ----- In the cluster -----

  /** The stored Deployment of a component: its pods carry the selected labels, it mounts the stored ConfigMap,
      its service account is the default one or stored, and every wanted service is stored and leads to one
      of its ports. */
  ghost predicate PodsWired(r: Core, c: Component, e: DeploymentSpec, t: Store)
  {
    && Selects(e.selector, e.template.labels)
    && MountsConfig(e.template.pod, MainConfigKey(r.who, c).name) && MainConfigKey(r.who, c) in t
    && (e.template.pod.serviceAccount == "default" || Key(ServiceAccount, r.who.ns, e.template.pod.serviceAccount) in t)
    && (forall x :: x in ServicesOf(r, c) ==>
          x.key in t && t[x.key] == x.obj && ServiceWired(t[x.key], e.template.labels, e.template.pod))
  }

  /** The stored monitor of a component, if one is wanted, watches exactly the component's metrics service
      among its stored services. */
  ghost predicate MonitorWired(r: Core, c: Component, t: Store)
  {
    MonitorOf(r, c).Some? ==>
      var m := CreateMonitor(r.who, c);
      && m.key in t && t[m.key] == m.obj
      && forall x :: x in ServicesOf(r, c) ==>
           (Watches(m.obj.body.monitor, x.key, x.obj.labels) <==> x.key.name == ServiceName(r.who.name, c, "metrics"))
  }

  ghost predicate Wired(w: World, r: Core, c: Component, t: Store)
  {
    var k := BaseKey(Deployment, r.who, c);
    && k in t && t[k].body.DeploymentBody? && PodsWired(r, c, t[k].body.deployment, t)
    && (w.crd ==> MonitorWired(r, c, t))
  }

  /** Under every key of a component there is nothing, or what some spec of the CR generates. */
  ghost predicate Ours(w: World, who: Who, c: Component, s: Store)
  {
    forall k :: Whole(who, c, k) ==> Within(Family(w, who, c, k), At(s, k))
  }

  lemma SameKeySameItem(xs: seq<Item>, x: Item)
    requires KeysDistinct(xs) && x in xs
    ensures ItemFor(xs, x.key) == Some(x)
  {
    var y := ItemFor(xs, x.key).value;
    var i :| 0 <= i < |xs| && xs[i] == x;
    var j :| 0 <= j < |xs| && xs[j] == y;
    assert xs[i].key == xs[j].key;
  }

  lemma ServiceItem(r: Core, c: Component, x: Item)
    requires x in ServicesOf(r, c)
    ensures x.key.kind == Service && ItemFor(ServicesOf(r, c), x.key) == Some(x) && Tracked(r.who, c, x.key)
  {
    ServicesAreGood(r, c, x);
    if c == MongoDB {
      assert ServicesOf(r, c)[1..] == [];
    } else {
      ExposedDistinct(r, c);
      ServiceKeysDistinct(r.who, c, ExposedBy(r, c));
    }
    SameKeySameItem(ServicesOf(r, c), x);
  }

  lemma WantedItem(crd: bool, b: Bundle, x: Item)
    requires
      || (x.key.kind == Service && ItemFor(b.services, x.key) == Some(x))
      || (x.key.kind == ServiceAccount && b.account == Some(x))
      || (x.key.kind == ServiceMonitor && crd && b.monitor == Some(x))
    ensures ItemOf(crd, b, x.key) == Some(x)
  {
  }

  /** What a spec wants is its target, kind by kind. */
  lemma ItemTarget(w: World, r: Resource, c: Component, x: Item, services: seq<Item>, account: Option<Item>, monitor: Option<Item>)
    requires Enabled(r.core, c)
    requires services == ServicesOf(r.core, c) && account == AccountOf(r.core, c) && monitor == MonitorOf(r.core, c)
    requires
      || (x.key.kind == Service && ItemFor(services, x.key) == Some(x))
      || (x.key.kind == ServiceAccount && account == Some(x))
      || (x.key.kind == ServiceMonitor && w.crd && monitor == Some(x))
    ensures Target(w, r, c, x.key) == Some(x.obj)
  {
    BundleParts(w, r, c);
    WantedItem(w.crd, BundleOf(w, r, c), x);
  }

  // ----- After a history and one complete pass -----

  /** The setting of the theorem. */
  ghost predicate Settled(w: World, h: Log, r: Resource, c: Component, t: Store)
  {
    && Faithful(w) && Attempts(Builders(w), r.core.who, h) && Ours(w, r.core.who, c, First(h))
    && Done(Builders(w), r, Last(h), t) && Enabled(r.core, c)
  }

  lemma TargetStored(w: World, h: Log, r: Resource, c: Component, k: Key, t: Store)
    requires Settled(w, h, r, c, t) && Tracked(r.core.who, c, k)
    ensures At(t, k) == Target(w, r, c, k)
  {
    assert Whole(r.core.who, c, k);
    HistoryIndependent(w, r.core.who, h, r, t, c, k);
  }

  ghost predicate OnTarget(w: World, r: Resource, c: Component, t: Store)
  {
    forall k :: Tracked(r.core.who, c, k) ==> At(t, k) == Target(w, r, c, k)
  }

  lemma AllTargetsStored(w: World, h: Log, r: Resource, c: Component, t: Store)
    requires Settled(w, h, r, c, t)
    ensures OnTarget(w, r, c, t)
  {
    forall k | Tracked(r.core.who, c, k) ensures At(t, k) == Target(w, r, c, k) { TargetStored(w, h, r, c, k, t); }
  }

  lemma ItemStored(w: World, r: Resource, c: Component, t: Store, x: Item)
    requires OnTarget(w, r, c, t) && Tracked(r.core.who, c, x.key) && Target(w, r, c, x.key) == Some(x.obj)
    ensures At(t, x.key) == Some(x.obj)
  {
  }

  lemma ServicesStored(w: World, r: Resource, c: Component, t: Store, x: Item)
    requires OnTarget(w, r, c, t) && Enabled(r.core, c) && x in ServicesOf(r.core, c)
    ensures At(t, x.key) == Some(x.obj)
  {
    ServiceItem(r.core, c, x);
    ItemTarget(w, r, c, x, ServicesOf(r.core, c), AccountOf(r.core, c), MonitorOf(r.core, c));
    ItemStored(w, r, c, t, x);
  }

  lemma AccountKey(r: Core, c: Component)
    ensures match AccountOf(r, c)
            case None => AccountName(r, c) == "default"
            case Some(x) => x.key == Key(ServiceAccount, r.who.ns, AccountName(r, c)) && Tracked(r.who, c, x.key)
  {
  }

  lemma AccountStored(w: World, r: Resource, c: Component, t: Store)
    requires OnTarget(w, r, c, t) && Enabled(r.core, c)
    ensures var name := AccountName(r.core, c); name == "default" || Key(ServiceAccount, r.core.who.ns, name) in t
  {
    AccountKey(r.core, c);
    if AccountOf(r.core, c).Some? {
      var x := AccountOf(r.core, c).value;
      ItemTarget(w, r, c, x, ServicesOf(r.core, c), AccountOf(r.core, c), MonitorOf(r.core, c));
      ItemStored(w, r, c, t, x);
      assert At(t, x.key).Some?;
    }
  }

  lemma MonitorKey(r: Core, c: Component)
    requires MonitorOf(r, c).Some?
    ensures MonitorOf(r, c).value.key.kind == ServiceMonitor && Tracked(r.who, c, MonitorOf(r, c).value.key)
  {
  }

  lemma MonitorStored(w: World, r: Resource, c: Component, t: Store, m: Item)
    requires OnTarget(w, r, c, t) && Enabled(r.core, c) && w.crd && MonitorOf(r.core, c) == Some(m)
    ensures At(t, m.key) == Some(m.obj)
  {
    MonitorKey(r.core, c);
    ItemTarget(w, r, c, m, ServicesOf(r.core, c), AccountOf(r.core, c), MonitorOf(r.core, c));
    ItemStored(w, r, c, t, m);
  }

  lemma MonitorIsWired(r: Core, c: Component, t: Store)
    requires MonitorOf(r, c).Some? ==> At(t, MonitorOf(r, c).value.key) == Some(MonitorOf(r, c).value.obj)
    ensures MonitorWired(r, c, t)
  {
    if MonitorOf(r, c).Some? {
      var m := CreateMonitor(r.who, c);
      assert At(t, m.key) == Some(m.obj);
      forall x | x in ServicesOf(r, c)
        ensures Watches(m.obj.body.monitor, x.key, x.obj.labels) <==> x.key.name == ServiceName(r.who.name, c, "metrics")
      {
        WatchesMetrics(r, c, x);
      }
    }
  }

  lemma WatchesMetrics(r: Core, c: Component, x: Item)
    requires x in ServicesOf(r, c) && HasMetrics(c)
    ensures Watches(CreateMonitor(r.who, c).obj.body.monitor, x.key, x.obj.labels)
        <==> x.key.name == ServiceName(r.who.name, c, "metrics")
  {
    var es := ExposedBy(r, c);
    var i :| 0 <= i < |es| && x == CreateService(r.who, c, es[i]);
    MonitorSelectsOwnMetrics(r.who, c, r.who, c, es[i]);
    if x.key.name == ServiceName(r.who.name, c, "metrics") {
      ConcatCancels(BaseName(r.who.name, c) + "-", es[i].protocol, "metrics");
    }
  }

  lemma ConfigOfBundleStored(d: Desired, c: Component, s: Store, t: Store)
    requires GoodDesired(d) && c in d.bundles && Completed(PassPlan(d), s, t)
    ensures d.bundles[c].config.key in t
  {
    var x := d.bundles[c].config;
    assert OwnItem(d.who, c, x, ConfigMap);
    AfterPass(d, c, x, ConfigMap, At(s, x.key));
    assert At(t, x.key).Some?;
  }

  lemma ConfigStored(w: World, r: Resource, d: Desired, c: Component, s: Store, t: Store)
    requires d == DesiredOf(w, r) && Enabled(r.core, c) && Completed(PassPlan(d), s, t)
    ensures MainConfigKey(r.core.who, c) in t
  {
    DesiredIsGood(w, r);
    BundlesOfDesired(w, r, c);
    DesiredIsBaseNamed(w, r, c);
    ConfigOfBundleStored(d, c, s, t);
  }

  lemma ConfigIsStored(w: World, h: Log, r: Resource, c: Component, t: Store)
    requires Settled(w, h, r, c, t)
    ensures MainConfigKey(r.core.who, c) in t
  {
    ConfigStored(w, r, Builders(w)(r), c, Last(h), t);
  }

  /** The stored Deployment is the one of the present spec; that of WebUI may be one of an earlier spec that
      the drift check does not tell from it. */
  lemma DeploymentFound(w: World, h: Log, r: Resource, c: Component, t: Store) returns (a: Resource)
    requires Settled(w, h, r, c, t) && c != UPF
    ensures a.core.who == r.core.who && At(t, BaseKey(Deployment, r.core.who, c)) == Some(MainDeployment(w, a, c).obj)
    ensures a == r || (c == WebUI && SameSeen(a.core, r.core))
  {
    var k := BaseKey(Deployment, r.core.who, c);
    if c == WebUI {
      a := WebuiFound(w, h, r, t);
    } else {
      a := r;
      TargetStored(w, h, r, c, k, t);
      DeploymentTarget(w, r, c);
    }
  }

  lemma WebuiFound(w: World, h: Log, r: Resource, t: Store) returns (a: Resource)
    requires Settled(w, h, r, WebUI, t)
    ensures a.core.who == r.core.who && At(t, BaseKey(Deployment, r.core.who, WebUI)) == Some(MainDeployment(w, a, WebUI).obj)
    ensures a == r || SameSeen(a.core, r.core)
  {
    var who, k := r.core.who, BaseKey(Deployment, r.core.who, WebUI);
    assert Whole(who, WebUI, k);
    HistoryKeepsFamily(w, who, h, WebUI, k);
    WebuiSettles(w, r, DesiredOf(w, r), Last(h), t);
    a := r;
    if At(Last(h), k).Some? {
      var b := MadeBy(w, who, WebUI, k, At(Last(h), k).value);
      MadeDeployment(w, b, WebUI);
      WebuiReplacesOrLeaves(w, b, r, k);
      if SameSeen(b.core, r.core) { a := b; }
    }
  }

  lemma WebuiSettles(w: World, r: Resource, d: Desired, s: Store, t: Store)
    requires d == DesiredOf(w, r) && Enabled(r.core, WebUI) && Completed(PassPlan(d), s, t)
    ensures var k := BaseKey(Deployment, r.core.who, WebUI);
      At(t, k) == EnsureSlot(r.core.who, k, MainDeployment(w, r, WebUI).obj, At(s, k))
  {
    var k := BaseKey(Deployment, r.core.who, WebUI);
    DesiredIsGood(w, r);
    BundlesOfDesired(w, r, WebUI);
    DeploymentKey(r.core.who, WebUI);
    CompletePass(d, WebUI, k, s, t);
    BuilderStep(w, r, d, WebUI, At(s, k));
    DeploymentTarget(w, r, WebUI);
  }

  /** What an earlier spec of WebUI has in common with the present one. */
  lemma PodAlike(a: Core, r: Core, c: Component)
    requires a.who == r.who && (a == r || (c == WebUI && SameSeen(a, r)))
    ensures |PodOf(a, c).containers| == 1 && |PodOf(r, c).containers| == 1
    ensures PodOf(a, c).containers[0].ports == PodOf(r, c).containers[0].ports
    ensures PodOf(a, c).serviceAccount == AccountName(r, c)
  {
    PodPorts(a, c);
    PodPorts(r, c);
    AccountIsPodAccount(a, c);
  }

  lemma DeploymentSelectsItsPods(w: World, r: Resource, c: Component)
    ensures var d := DeploymentOf(w, r, c);
      d.template.labels == PodLabels(r.core.who.name, c) && d.template.pod == PodOf(r.core, c)
      && Selects(d.selector, d.template.labels)
  {
  }

  lemma PodsWiredFrom(a: Core, r: Core, c: Component, e: DeploymentSpec, t: Store)
    requires a.who == r.who && (a == r || (c == WebUI && SameSeen(a, r)))
    requires e.template.labels == PodLabels(r.who.name, c) && e.template.pod == PodOf(a, c) && Selects(e.selector, e.template.labels)
    requires forall x :: x in ServicesOf(r, c) ==> At(t, x.key) == Some(x.obj)
    requires MainConfigKey(r.who, c) in t
    requires var name := AccountName(r, c); name == "default" || Key(ServiceAccount, r.who.ns, name) in t
    ensures PodsWired(r, c, e, t)
  {
    PodAlike(a, r, c);
    PodMountsItsConfig(a, c);
    forall x | x in ServicesOf(r, c)
      ensures x.key in t && t[x.key] == x.obj && ServiceWired(t[x.key], e.template.labels, e.template.pod)
    {
      assert At(t, x.key) == Some(x.obj);
      ServicesAreWired(r, c, x);
    }
  }

  lemma PodsAreWired(w: World, r: Resource, a: Resource, c: Component, e: DeploymentSpec, t: Store)
    requires a.core.who == r.core.who && (a == r || (c == WebUI && SameSeen(a.core, r.core)))
    requires e.template.labels == PodLabels(r.core.who.name, c) && e.template.pod == PodOf(a.core, c)
    requires Selects(e.selector, e.template.labels)
    requires OnTarget(w, r, c, t) && Enabled(r.core, c) && MainConfigKey(r.core.who, c) in t
    ensures PodsWired(r.core, c, e, t)
  {
    forall x | x in ServicesOf(r.core, c) ensures At(t, x.key) == Some(x.obj) { ServicesStored(w, r, c, t, x); }
    AccountStored(w, r, c, t);
    PodsWiredFrom(a.core, r.core, c, e, t);
  }

  lemma MonitorsAreWired(w: World, r: Resource, c: Component, t: Store)
    requires OnTarget(w, r, c, t) && Enabled(r.core, c)
    ensures w.crd ==> MonitorWired(r.core, c, t)
  {
    if w.crd {
      if MonitorOf(r.core, c).Some? { MonitorStored(w, r, c, t, MonitorOf(r.core, c).value); }
      MonitorIsWired(r.core, c, t);
    }
  }

  lemma WiredFrom(w: World, r: Resource, a: Resource, c: Component, t: Store)
    requires a.core.who == r.core.who && (a == r || (c == WebUI && SameSeen(a.core, r.core)))
    requires At(t, BaseKey(Deployment, r.core.who, c)) == Some(MainDeployment(w, a, c).obj)
    requires OnTarget(w, r, c, t) && Enabled(r.core, c) && MainConfigKey(r.core.who, c) in t
    ensures Wired(w, r.core, c, t)
  {
    DeploymentSelectsItsPods(w, a, c);
    PodsAreWired(w, r, a, c, DeploymentOf(w, a, c), t);
    MonitorsAreWired(w, r, c, t);
  }

  /** After any history of spec edits, with any passes cut short and anything failing, and one complete pass:
      the stored services lead to ports of the pods that they select, the mounted ConfigMap and the service
      account are there, and the stored monitor watches the metrics service. For every component but UPF. */
  lemma WiringHolds(w: World, h: Log, r: Resource, c: Component, t: Store)
    requires Settled(w, h, r, c, t) && c != UPF
    ensures Wired(w, r.core, c, t)
  {
    var a := DeploymentFound(w, h, r, c, t);
    AllTargetsStored(w, h, r, c, t);
    ConfigIsStored(w, h, r, c, t);
    WiredFrom(w, r, a, c, t);
  }
}
