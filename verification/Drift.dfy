/** What the cheap drift check sees, and what the stored Deployments say about the spec. */
module Drift {
  import opened Text
  import opened Model
  import opened Names
  import opened Config
  import opened Resources
  import opened Compare
  import opened Plan
  import opened Coherence
  import opened PlanFacts
  import opened Outcomes
  import opened Convergence
  import opened Probes

  // ----- The drift check -----

  lemma SameEntry(key: string, x: string, y: string)
    requires map[key := x] == map[key := y]
    ensures x == y
  {
    assert map[key := x][key] == map[key := y][key];
  }

  lemma AmfDataShows(inst: string, a: Configuration, b: Configuration, m: bool, n: bool)
    requires SlicedData(inst, a, m, true) == SlicedData(inst, b, n, true)
    ensures m == n
  {
    SameEntry("amf.yaml", AmfText(inst, a, m), AmfText(inst, b, n));
    AmfTextShowsMetrics(inst, a, b);
    AmfTextShowsMetrics(inst, b, a);
  }

  lemma SmfDataShows(i: Inputs, j: Inputs)
    requires PlainData(i, SMF) == PlainData(j, SMF) && i.inst == j.inst
    ensures i.metrics == j.metrics
  {
    SameEntry("smf.yaml", SmfText(i.inst, i.metrics), SmfText(j.inst, j.metrics));
    SmfTextShowsMetrics(i.inst);
  }

  lemma PcfDataShows(i: Inputs, j: Inputs)
    requires PlainData(i, PCF) == PlainData(j, PCF) && i.inst == j.inst
    ensures i.metrics == j.metrics
  {
    SameEntry("pcf.yaml", PcfText(i.inst, i.metrics), PcfText(j.inst, j.metrics));
    PcfTextShowsMetrics(i.inst);
  }

  lemma AmfConfigShows(a: Core, b: Core)
    requires a.who.name == b.who.name && ConfigData(a, AMF) == ConfigData(b, AMF)
    ensures Metrics(a, AMF) == Metrics(b, AMF)
  {
    AmfConfig(a);
    AmfConfig(b);
    AmfDataShows(a.who.name, a.spec.configuration, b.spec.configuration, Metrics(a, AMF), Metrics(b, AMF));
  }

  lemma SmfConfigShows(a: Core, b: Core)
    requires a.who.name == b.who.name && ConfigData(a, SMF) == ConfigData(b, SMF)
    ensures Metrics(a, SMF) == Metrics(b, SMF)
  {
    SmfDataShows(InputsOf(a, SMF), InputsOf(b, SMF));
  }

  lemma PcfConfigShows(a: Core, b: Core)
    requires a.who.name == b.who.name && ConfigData(a, PCF) == ConfigData(b, PCF)
    ensures Metrics(a, PCF) == Metrics(b, PCF)
  {
    PcfDataShows(InputsOf(a, PCF), InputsOf(b, PCF));
  }

  /** ConfigMaps of one instance that agree agree on the metrics flag, where the flag adds a port. */
  lemma DataShowsMetrics(a: Core, b: Core, c: Component)
    requires a.who.name == b.who.name && c in {AMF, SMF, PCF}
    requires ConfigData(a, c) == ConfigData(b, c)
    ensures Metrics(a, c) == Metrics(b, c)
  {
    match c
    case AMF => AmfConfigShows(a, b);
    case SMF => SmfConfigShows(a, b);
    case PCF => PcfConfigShows(a, b);
  }

  lemma DataRendered(w: World, r: Core, c: Component)
    requires Renders(w)
    ensures w.data(r, c) == ConfigData(r, c)
  {
  }

  lemma HashOfGenerated(w: World, r: Resource, c: Component)
    ensures HashOf(DeploymentOf(w, r, c)) == w.digest(w.data(r.core, c))
  {
  }

  /** The flags that a Deployment depends on, apart from its image and service account. */
  lemma SameFlagsSamePorts(a: Core, b: Core, c: Component)
    requires c !in {UPF} && (c in {AMF, SMF, PCF} ==> Metrics(a, c) == Metrics(b, c))
    ensures ContainerPorts(a, c) == ContainerPorts(b, c)
  {
  }

  lemma ImagesOfOne(x: Container, y: Container, p: PodSpec, q: PodSpec)
    requires p.containers == [x] && q.containers == [y]
    ensures Images(p) == Images(q) <==> x.image == y.image
  {
    assert Images(p) == [x.image] && Images(q) == [y.image];
  }

  lemma PodDetermined(a: Core, b: Core, c: Component)
    requires a.who == b.who && c != UPF && c != WebUI
    requires AccountName(a, c) == AccountName(b, c) && ContainerPorts(a, c) == ContainerPorts(b, c)
    requires Images(PodOf(a, c)) == Images(PodOf(b, c))
    ensures PodOf(a, c) == PodOf(b, c)
  {
    ImagesOfOne(PodOf(a, c).containers[0], PodOf(b, c).containers[0], PodOf(a, c), PodOf(b, c));
  }

  lemma AccountIsPodAccount(a: Core, c: Component)
    ensures PodOf(a, c).serviceAccount == AccountName(a, c)
  {
  }

  lemma SameDataSamePod(a: Core, b: Core, c: Component)
    requires a.who == b.who && c != UPF && c != WebUI
    requires ConfigData(a, c) == ConfigData(b, c)
    requires PodOf(a, c).serviceAccount == PodOf(b, c).serviceAccount && Images(PodOf(a, c)) == Images(PodOf(b, c))
    ensures PodOf(a, c) == PodOf(b, c)
  {
    if c in {AMF, SMF, PCF} { DataShowsMetrics(a, b, c); }
    SameFlagsSamePorts(a, b, c);
    AccountIsPodAccount(a, c);
    AccountIsPodAccount(b, c);
    PodDetermined(a, b, c);
  }

  lemma SamePod(w: World, a: Core, b: Core, c: Component)
    requires Renders(w) && a.who == b.who && c != UPF && c != WebUI && w.data(a, c) == w.data(b, c)
    requires PodOf(a, c).serviceAccount == PodOf(b, c).serviceAccount && Images(PodOf(a, c)) == Images(PodOf(b, c))
    ensures PodOf(a, c) == PodOf(b, c)
  {
    DataRendered(w, a, c);
    DataRendered(w, b, c);
    SameDataSamePod(a, b, c);
  }

  lemma DeploymentDetermined(w: World, a: Resource, b: Resource, c: Component)
    requires a.core.who == b.core.who && (c == UPF ==> a.annotations == b.annotations)
    requires w.data(a.core, c) == w.data(b.core, c) && PodOf(a.core, c) == PodOf(b.core, c)
    ensures DeploymentOf(w, a, c) == DeploymentOf(w, b, c)
  {
  }

  /** For every component but UPF and WebUI: if the drift check passes and the hashes agree, the whole
      generated Deployments are equal, for any two specs of one instance. */
  lemma DriftCheckComplete(w: World, a: Resource, b: Resource, c: Component, labels: Labels)
    requires Faithful(w) && a.core.who == b.core.who && c != UPF && c != WebUI
    requires DeploymentEqual(labels, DeploymentOf(w, a, c), labels, DeploymentOf(w, b, c))
    requires HashOf(DeploymentOf(w, a, c)) == HashOf(DeploymentOf(w, b, c))
    ensures DeploymentOf(w, a, c) == DeploymentOf(w, b, c)
  {
    HashOfGenerated(w, a, c);
    HashOfGenerated(w, b, c);
    SamePod(w, a.core, b.core, c);
    DeploymentDetermined(w, a, b, c);
  }

  /** What of the spec the drift check of WebUI compares. The init image is not compared. */
  predicate SameSeen(a: Core, b: Core)
  {
    a.spec.webuiImage == b.spec.webuiImage && AccountName(a, WebUI) == AccountName(b, WebUI)
  }

  lemma WebuiData(r: Core)
    ensures ConfigData(r, WebUI) == map["add_admin.sh" := "(add_admin)"]
  {
  }

  lemma WebuiDataConstant(w: World, a: Core, b: Core)
    requires Renders(w)
    ensures w.data(a, WebUI) == w.data(b, WebUI)
  {
    DataRendered(w, a, WebUI);
    DataRendered(w, b, WebUI);
    WebuiData(a);
    WebuiData(b);
  }

  lemma WebuiPodSeen(a: Core, b: Core)
    requires a.who == b.who
    ensures var p, q := PodOf(a, WebUI), PodOf(b, WebUI);
      p.serviceAccount == q.serviceAccount && Images(p) == Images(q) <==> SameSeen(a, b)
  {
    var p, q := PodOf(a, WebUI), PodOf(b, WebUI);
    ImagesOfOne(p.containers[0], q.containers[0], p, q);
  }

  lemma WebuiDriftSeen(w: World, a: Resource, b: Resource, labels: Labels)
    requires Renders(w) && a.core.who == b.core.who
    ensures var d, e := DeploymentOf(w, b, WebUI), DeploymentOf(w, a, WebUI);
      DeploymentEqual(labels, d, labels, e) && HashOf(e) == HashOf(d) <==> SameSeen(a.core, b.core)
  {
    WebuiPodSeen(a.core, b.core);
    WebuiDataConstant(w, a.core, b.core);
    HashOfGenerated(w, a, WebUI);
    HashOfGenerated(w, b, WebUI);
  }

  lemma WebuiInitShows(a: Core, b: Core)
    requires a.who == b.who && SameSeen(a, b)
    ensures WebuiPod(a) == WebuiPod(b) <==> a.spec.mongoVersion == b.spec.mongoVersion
  {
    var p, q := WebuiPod(a), WebuiPod(b);
    assert p.initContainers[0].image == a.spec.mongoVersion && q.initContainers[0].image == b.spec.mongoVersion;
  }

  lemma WebuiPodShows(w: World, a: Resource, b: Resource)
    requires Renders(w) && a.core.who == b.core.who && SameSeen(a.core, b.core)
    ensures DeploymentOf(w, a, WebUI) == DeploymentOf(w, b, WebUI) <==> a.core.spec.mongoVersion == b.core.spec.mongoVersion
  {
    var p, q := PodOf(a.core, WebUI), PodOf(b.core, WebUI);
    WebuiInitShows(a.core, b.core);
    WebuiDataConstant(w, a.core, b.core);
    if p == q {
      DeploymentDetermined(w, a, b, WebUI);
    } else {
      assert DeploymentOf(w, a, WebUI).template.pod == p && DeploymentOf(w, b, WebUI).template.pod == q;
    }
  }

  /** What of the spec shows in the UPF pod. */
  predicate SameUpfPod(a: Core, b: Core)
  {
    && a.spec.open5gsImage == b.spec.open5gsImage && Metrics(a, UPF) == Metrics(b, UPF)
    && AccountName(a, UPF) == AccountName(b, UPF) && Unprivileged(a) == Unprivileged(b)
  }

  lemma UpfPodShows(a: Core, b: Core)
    requires a.who == b.who
    ensures UpfPod(a) == UpfPod(b) <==> SameUpfPod(a, b)
  {
    var p, q := UpfPod(a), UpfPod(b);
    assert p.containers[0].image == a.spec.open5gsImage && q.containers[0].image == b.spec.open5gsImage;
    assert p.containers[0].ports == ContainerPorts(a, UPF) && q.containers[0].ports == ContainerPorts(b, UPF);
    assert |ContainerPorts(a, UPF)| == 2 + |MetricsPort(a, UPF)| && |ContainerPorts(b, UPF)| == 2 + |MetricsPort(b, UPF)|;
    assert |p.volumes| == (if Unprivileged(a) then 3 else 2) && |q.volumes| == (if Unprivileged(b) then 3 else 2);
  }

  // ----- The hash in the pod template -----

  /** An owned object that an enabled component wants, after a pass over any well-formed cluster. */
  lemma AfterPass(d: Desired, c: Component, x: Item, kind: Kind, slot: Slot)
    requires GoodDesired(d) && c in d.bundles
    requires x == d.bundles[c].config || x == d.bundles[c].deployment
    ensures Effects(PassPlan(d), x.key, slot) == EnsureSlot(d.who, x.key, x.obj, slot)
  {
    var b := d.bundles[c];
    assert OwnItem(d.who, c, x, x.key.kind);
    PassAt({d.who}, d, c, x.key, slot);
    EnablePlanAt(c in d.monitored, d.who, c, b, x.key, slot);
  }

  lemma ItemStored(d: Desired, ts: Tests, c: Component, x: Item, kind: Kind, s: Store, t: Store)
    requires GoodDesired(d) && c in d.bundles && Completed(PassPlan(Seen(d, ts)), s, t)
    requires x == d.bundles[c].config || x == d.bundles[c].deployment
    ensures At(t, x.key) == EnsureSlot(d.who, x.key, x.obj, At(s, x.key))
  {
    var e := Seen(d, ts);
    SeenIsGood(d, ts);
    AfterPass(e, c, x, kind, At(s, x.key));
    assert At(t, x.key) == Effects(PassPlan(e), x.key, At(s, x.key));
  }

  /** Whatever tests failed, a pass that went through has reconciled the ConfigMap and the Deployment of every
      enabled component. */
  lemma MainStored(d: Desired, c: Component, s: Store, t: Store)
    requires GoodDesired(d) && c in d.bundles && Succeeded(d, s, t)
    ensures var x := d.bundles[c].config; At(t, x.key) == EnsureSlot(d.who, x.key, x.obj, At(s, x.key))
    ensures var y := d.bundles[c].deployment; At(t, y.key) == EnsureSlot(d.who, y.key, y.obj, At(s, y.key))
  {
    var ts: Tests :| Completed(PassPlan(Seen(d, ts)), s, t);
    ItemStored(d, ts, c, d.bundles[c].config, ConfigMap, s, t);
    ItemStored(d, ts, c, d.bundles[c].deployment, Deployment, s, t);
  }

  lemma EnsuredData(who: Who, k: Key, want: Obj, slot: Slot)
    requires want.body.ConfigBody?
    requires var o := EnsureSlot(who, k, want, slot).value; HasOwner(o, who.uid) && o.body.ConfigBody?
    ensures EnsureSlot(who, k, want, slot).value.body == want.body
  {
  }

  lemma EnsuredHash(who: Who, k: Key, want: Obj, slot: Slot)
    requires want.body.DeploymentBody?
    requires var o := EnsureSlot(who, k, want, slot).value; HasOwner(o, who.uid) && o.body.DeploymentBody?
    ensures HashOf(EnsureSlot(who, k, want, slot).value.body.deployment) == HashOf(want.body.deployment)
  {
  }

  /** After every pass that went through, over whatever cluster earlier passes left (complete, cut short or
      with failed calls): the pod template of an owned Deployment carries the hash of the data that the owned
      ConfigMap holds. */
  lemma HashAgreesWithConfig(w: World, r: Resource, c: Component, s: Store, t: Store)
    requires Enabled(r.core, c) && Succeeded(DesiredOf(w, r), s, t)
    requires MainConfigKey(r.core.who, c) in t && BaseKey(Deployment, r.core.who, c) in t
    requires var o := t[MainConfigKey(r.core.who, c)]; HasOwner(o, r.core.who.uid) && o.body.ConfigBody?
    requires var o := t[BaseKey(Deployment, r.core.who, c)]; HasOwner(o, r.core.who.uid) && o.body.DeploymentBody?
    ensures HashOf(t[BaseKey(Deployment, r.core.who, c)].body.deployment)
         == w.digest(t[MainConfigKey(r.core.who, c)].body.data)
  {
    var d, who := DesiredOf(w, r), r.core.who;
    DesiredIsGood(w, r);
    BundlesOfDesired(w, r, c);
    var x, y := MainConfig(w, r.core, c), MainDeployment(w, r, c);
    MainStored(d, c, s, t);
    assert At(t, x.key) == Some(t[x.key]) && At(t, y.key) == Some(t[y.key]);
    EnsuredData(who, x.key, x.obj, At(s, x.key));
    EnsuredHash(who, y.key, y.obj, At(s, y.key));
    HashOfGenerated(w, r, c);
  }

  lemma EnsuredUpfAnnotations(who: Who, k: Key, want: Obj, slot: Slot)
    requires want.body.DeploymentBody? && IsUpf(who, k)
    requires var o := EnsureSlot(who, k, want, slot).value; HasOwner(o, who.uid) && o.body.DeploymentBody?
    ensures EnsureSlot(who, k, want, slot).value.body.deployment.template.annotations
         == want.body.deployment.template.annotations
  {
  }

  lemma UpfOfBundleStored(d: Desired, k: Key, s: Store, t: Store)
    requires GoodDesired(d) && UPF in d.bundles && Succeeded(d, s, t)
    requires k == d.bundles[UPF].deployment.key && IsUpf(d.who, k)
    requires k in t && HasOwner(t[k], d.who.uid) && t[k].body.DeploymentBody?
    requires d.bundles[UPF].deployment.obj.body.DeploymentBody?
    ensures t[k].body.deployment.template.annotations
         == d.bundles[UPF].deployment.obj.body.deployment.template.annotations
  {
    MainStored(d, UPF, s, t);
    assert At(t, k) == Some(t[k]);
    EnsuredUpfAnnotations(d.who, k, d.bundles[UPF].deployment.obj, At(s, k));
  }

  lemma UpfBundleAnnotations(w: World, r: Resource)
    ensures var x := BundleOf(w, r, UPF).deployment;
      && x.key == BaseKey(Deployment, r.core.who, UPF) && x.obj.body.DeploymentBody?
      && x.obj.body.deployment.template.annotations == r.annotations[HashKey() := w.digest(w.data(r.core, UPF))]
  {
  }

  /** After every pass that went through the pod annotations of the owned UPF Deployment are exactly the user's,
      with the hash entry set to the real hash even if the user supplied another value for it. */
  lemma UpfAnnotationsExact(w: World, r: Resource, s: Store, t: Store)
    requires Enabled(r.core, UPF)
    requires Succeeded(DesiredOf(w, r), s, t)
    requires var k := BaseKey(Deployment, r.core.who, UPF);
      k in t && HasOwner(t[k], r.core.who.uid) && t[k].body.DeploymentBody?
    ensures t[BaseKey(Deployment, r.core.who, UPF)].body.deployment.template.annotations
         == r.annotations[HashKey() := w.digest(w.data(r.core, UPF))]
  {
    DesiredIsGood(w, r);
    BundlesOfDesired(w, r, UPF);
    UpfBundleAnnotations(w, r);
    UpfOfBundleStored(DesiredOf(w, r), BaseKey(Deployment, r.core.who, UPF), s, t);
  }

  // ----- Rollouts -----

  /** `b` is `a` with another slice list. */
  predicate SlicesEdited(a: Core, b: Core)
  {
    && b == a.(spec := a.spec.(configuration := a.spec.configuration.(slices := b.spec.configuration.slices)))
    && CleanSlices(SliceList(a.spec.configuration)) && CleanSlices(SliceList(b.spec.configuration))
    && SliceList(a.spec.configuration) != SliceList(b.spec.configuration)
  }

  lemma OnlySlicesDiffer(a: Core, b: Core, c: Component)
    requires SlicesEdited(a, b)
    ensures a.who == b.who && InputsOf(a, c) == InputsOf(b, c)
  {
  }

  lemma SlicesHidden(a: Core, b: Core, c: Component)
    requires InputsOf(a, c) == InputsOf(b, c) && c != AMF && c != NSSF
    ensures ConfigData(a, c) == ConfigData(b, c)
  {
  }

  lemma SlicedDataShows(inst: string, a: Configuration, b: Configuration, metrics: bool, amf: bool)
    requires CleanSlices(SliceList(a)) && CleanSlices(SliceList(b))
    requires b == a.(slices := b.slices) && SliceList(a) != SliceList(b)
    ensures SlicedData(inst, a, metrics, amf) != SlicedData(inst, b, metrics, amf)
  {
    SlicesDetermined(inst, a, b, metrics);
    if amf {
      assert SlicedData(inst, a, metrics, amf)["amf.yaml"] != SlicedData(inst, b, metrics, amf)["amf.yaml"];
    } else {
      assert SlicedData(inst, a, metrics, amf)["nssf.yaml"] != SlicedData(inst, b, metrics, amf)["nssf.yaml"];
    }
  }

  lemma SlicedConfig(r: Core, c: Component, metrics: bool)
    requires (c == AMF || c == NSSF) && metrics == Metrics(r, c)
    ensures ConfigData(r, c) == SlicedData(r.who.name, r.spec.configuration, metrics, c == AMF)
  {
    if c == AMF { AmfConfig(r); } else { NssfConfig(r); }
  }

  lemma AmfConfig(r: Core)
    ensures ConfigData(r, AMF) == SlicedData(r.who.name, r.spec.configuration, Metrics(r, AMF), true)
  {
  }

  lemma NssfConfig(r: Core)
    ensures ConfigData(r, NSSF) == SlicedData(r.who.name, r.spec.configuration, Metrics(r, NSSF), false)
  {
  }

  lemma SameButSlices(a: Core, b: Core, c: Component)
    requires SlicesEdited(a, b)
    ensures a.who == b.who && Metrics(a, c) == Metrics(b, c)
    ensures b.spec.configuration == a.spec.configuration.(slices := b.spec.configuration.slices)
  {
  }

  lemma SlicesShow(a: Core, b: Core, c: Component)
    requires SlicesEdited(a, b) && (c == AMF || c == NSSF)
    ensures ConfigData(a, c) != ConfigData(b, c)
  {
    var metrics := Metrics(a, c);
    SameButSlices(a, b, c);
    SlicedDataShows(a.who.name, a.spec.configuration, b.spec.configuration, metrics, c == AMF);
    SlicedConfig(a, c, metrics);
    SlicedConfig(b, c, metrics);
  }

  lemma SlicesShowInData(w: World, a: Core, b: Core, c: Component)
    requires Renders(w) && SlicesEdited(a, b)
    ensures c == AMF || c == NSSF <==> w.data(a, c) != w.data(b, c)
  {
    DataRendered(w, a, c);
    DataRendered(w, b, c);
    if c == AMF || c == NSSF {
      SlicesShow(a, b, c);
    } else {
      OnlySlicesDiffer(a, b, c);
      SlicesHidden(a, b, c);
    }
  }

  lemma SameFlags(a: Core, b: Core, c: Component)
    requires a.who == b.who && Flags(a, c) == Flags(b, c)
    ensures AccountName(a, c) == AccountName(b, c) && ContainerPorts(a, c) == ContainerPorts(b, c)
  {
  }

  lemma UpfPodFromParts(a: Core, b: Core)
    requires a.who == b.who && AccountName(a, UPF) == AccountName(b, UPF) && ContainerPorts(a, UPF) == ContainerPorts(b, UPF)
    requires a.spec.open5gsImage == b.spec.open5gsImage && Unprivileged(a) == Unprivileged(b)
    ensures UpfPod(a) == UpfPod(b)
  {
  }

  lemma PodFromParts(a: Core, b: Core, c: Component)
    requires a.who == b.who && AccountName(a, c) == AccountName(b, c) && ContainerPorts(a, c) == ContainerPorts(b, c)
    requires a.spec.open5gsImage == b.spec.open5gsImage && a.spec.webuiImage == b.spec.webuiImage
    requires a.spec.mongoVersion == b.spec.mongoVersion && Unprivileged(a) == Unprivileged(b)
    ensures PodOf(a, c) == PodOf(b, c)
  {
    if c == UPF { UpfPodFromParts(a, b); } else { assert EnvVars(a, c) == EnvVars(b, c); }
  }

  /** Pods are generated from everything but the configuration. */
  lemma ConfigurationIgnored(a: Core, spec: Spec, c: Component)
    requires spec == a.spec.(configuration := spec.configuration)
    ensures PodOf(a.(spec := spec), c) == PodOf(a, c)
  {
    var b := a.(spec := spec);
    assert Flags(b, c) == Flags(a, c) && Flags(b, UPF) == Flags(a, UPF);
    SameFlags(b, a, c);
    PodFromParts(b, a, c);
  }

  lemma SlicesDoNotShowInPod(a: Core, b: Core, c: Component)
    requires SlicesEdited(a, b)
    ensures PodOf(a, c) == PodOf(b, c) && a.who == b.who
  {
    ConfigurationIgnored(a, b.spec, c);
    assert b == a.(spec := b.spec);
  }

  /** A slice edit changes the generated Deployment of AMF and NSSF, in its hash, and of no other. */
  lemma SlicesShowInDeployment(w: World, a: Resource, b: Resource, c: Component)
    requires Faithful(w) && SlicesEdited(a.core, b.core) && a.annotations == b.annotations
    ensures c != AMF && c != NSSF ==> DeploymentOf(w, a, c) == DeploymentOf(w, b, c)
    ensures c == AMF || c == NSSF ==> HashOf(DeploymentOf(w, a, c)) != HashOf(DeploymentOf(w, b, c))
  {
    SlicesShowInData(w, a.core, b.core, c);
    if c == AMF || c == NSSF {
      HashOfGenerated(w, a, c);
      HashOfGenerated(w, b, c);
    } else {
      SlicesDoNotShowInPod(a.core, b.core, c);
      DeploymentDetermined(w, a, b, c);
    }
  }

  /** Two passes over one Deployment, with the same wanted object or with another hash. */
  lemma TemplateChange(who: Who, k: Key, want: Obj, want': Obj, slot: Slot)
    requires want.body.DeploymentBody? && want'.body.DeploymentBody?
    requires want' == want || HashOf(want'.body.deployment) != HashOf(want.body.deployment)
    requires EnsureSlot(who, k, want, slot).value.body.DeploymentBody?
    ensures var first := EnsureSlot(who, k, want, slot);
      var second := EnsureSlot(who, k, want', first);
      && second.value.body.DeploymentBody?
      && (second.value.body.deployment.template != first.value.body.deployment.template <==>
            HasOwner(first.value, who.uid) && want' != want)
  {
    var first := EnsureSlot(who, k, want, slot);
    EnsureIdempotent(who, k, want, slot);
    if want' != want && HasOwner(first.value, who.uid) {
      EnsuredHash(who, k, want, slot);
      EnsuredHash(who, k, want', first);
    }
  }

  /** The Deployment of a component over two passes that both enable it. */
  lemma TwoPasses(d: Desired, e: Desired, c: Component, k: Key, s: Store, t: Store, u: Store)
    requires e.who == d.who && GoodDesired(d) && GoodDesired(e)
    requires c in d.bundles && c in e.bundles
    requires k == d.bundles[c].deployment.key == e.bundles[c].deployment.key
    requires Succeeded(d, s, t) && Succeeded(e, t, u)
    requires var want, want' := d.bundles[c].deployment.obj, e.bundles[c].deployment.obj;
      && want.body.DeploymentBody? && want'.body.DeploymentBody?
      && (want' == want || HashOf(want'.body.deployment) != HashOf(want.body.deployment))
    requires k in t && t[k].body.DeploymentBody?
    ensures k in u && u[k].body.DeploymentBody?
    ensures u[k].body.deployment.template != t[k].body.deployment.template <==>
      HasOwner(t[k], d.who.uid) && e.bundles[c].deployment.obj != d.bundles[c].deployment.obj
  {
    MainStored(d, c, s, t);
    MainStored(e, c, t, u);
    TemplateChange(d.who, k, d.bundles[c].deployment.obj, e.bundles[c].deployment.obj, At(s, k));
  }

  /** What two wanted Deployments under a key have to do with each other when only the slices differ. */
  ghost predicate RollsTo(x: Item, y: Item, k: Key, rolls: bool)
  {
    && x.key == y.key == k && x.obj.body.DeploymentBody? && y.obj.body.DeploymentBody?
    && (!rolls ==> y.obj == x.obj)
    && (rolls ==> HashOf(y.obj.body.deployment) != HashOf(x.obj.body.deployment))
  }

  lemma ItemsRoll(w: World, a: Resource, b: Resource, c: Component, rolls: bool)
    requires a.core.who == b.core.who
    requires !rolls ==> DeploymentOf(w, a, c) == DeploymentOf(w, b, c)
    requires rolls ==> HashOf(DeploymentOf(w, a, c)) != HashOf(DeploymentOf(w, b, c))
    ensures RollsTo(MainDeployment(w, a, c), MainDeployment(w, b, c), BaseKey(Deployment, a.core.who, c), rolls)
  {
  }

  lemma SlicesShowInItem(w: World, a: Resource, b: Resource, c: Component, rolls: bool)
    requires Faithful(w) && SlicesEdited(a.core, b.core) && a.annotations == b.annotations
    requires rolls <==> c == AMF || c == NSSF
    ensures RollsTo(MainDeployment(w, a, c), MainDeployment(w, b, c), BaseKey(Deployment, a.core.who, c), rolls)
  {
    SlicesShowInDeployment(w, a, b, c);
    SameButSlices(a.core, b.core, c);
    ItemsRoll(w, a, b, c, rolls);
  }

  ghost predicate Wants(d: Desired, who: Who, c: Component, x: Item)
  {
    d.who == who && GoodDesired(d) && c in d.bundles && d.bundles[c].deployment == x
  }

  lemma WantsGenerated(w: World, r: Resource, c: Component, d: Desired, x: Item)
    requires d == DesiredOf(w, r) && Enabled(r.core, c) && x == MainDeployment(w, r, c)
    ensures Wants(d, r.core.who, c, x)
  {
    DesiredIsGood(w, r);
    BundlesOfDesired(w, r, c);
  }

  lemma RolloutOfTwo(d: Desired, e: Desired, who: Who, c: Component, x: Item, y: Item, k: Key, rolls: bool,
      s: Store, t: Store, u: Store)
    requires Wants(d, who, c, x) && Wants(e, who, c, y) && RollsTo(x, y, k, rolls)
    requires Succeeded(d, s, t) && Succeeded(e, t, u)
    requires k in t && t[k].body.DeploymentBody?
    ensures k in u && u[k].body.DeploymentBody?
    ensures u[k].body.deployment.template != t[k].body.deployment.template <==> HasOwner(t[k], who.uid) && rolls
  {
    TwoPasses(d, e, c, k, s, t, u);
  }

  lemma RolloutOfDesired(w: World, a: Resource, b: Resource, c: Component, d: Desired, e: Desired, rolls: bool,
      k: Key, s: Store, t: Store, u: Store)
    requires d == DesiredOf(w, a) && e == DesiredOf(w, b) && k == BaseKey(Deployment, a.core.who, c)
    requires Enabled(a.core, c) && Enabled(b.core, c) && a.core.who == b.core.who
    requires RollsTo(MainDeployment(w, a, c), MainDeployment(w, b, c), k, rolls)
    requires Succeeded(d, s, t) && Succeeded(e, t, u)
    requires k in t && t[k].body.DeploymentBody?
    ensures k in u && u[k].body.DeploymentBody?
    ensures u[k].body.deployment.template != t[k].body.deployment.template <==> HasOwner(t[k], a.core.who.uid) && rolls
  {
    var x, y := MainDeployment(w, a, c), MainDeployment(w, b, c);
    WantsGenerated(w, a, c, d, x);
    WantsGenerated(w, b, c, e, y);
    RolloutOfTwo(d, e, a.core.who, c, x, y, k, rolls, s, t, u);
  }

  /** After a pass, an edit of nothing but the slices and another pass, from any cluster: among the owned
      Deployments of enabled components exactly those of AMF and NSSF roll out. */
  lemma RolloutsAreExact(w: World, a: Resource, b: Resource, c: Component, s: Store, t: Store, u: Store)
    requires Faithful(w)
    requires SlicesEdited(a.core, b.core) && a.annotations == b.annotations && Enabled(a.core, c)
    requires Succeeded(DesiredOf(w, a), s, t) && Succeeded(DesiredOf(w, b), t, u)
    requires BaseKey(Deployment, a.core.who, c) in t && t[BaseKey(Deployment, a.core.who, c)].body.DeploymentBody?
    ensures var k := BaseKey(Deployment, a.core.who, c);
      && k in u && u[k].body.DeploymentBody?
      && (u[k].body.deployment.template != t[k].body.deployment.template <==>
            HasOwner(t[k], a.core.who.uid) && (c == AMF || c == NSSF))
  {
    var rolls := c == AMF || c == NSSF;
    SlicesShowInItem(w, a, b, c, rolls);
    SameButSlices(a.core, b.core, c);
    RolloutOfDesired(w, a, b, c, DesiredOf(w, a), DesiredOf(w, b), rolls, BaseKey(Deployment, a.core.who, c), s, t, u);
  }
}
