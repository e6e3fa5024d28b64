/** What the generated and the stored objects say, in terms of the fields of the custom resource. */
module Intent {
  import opened Text
  import opened Model
  import opened Names
  import opened Resources
  import opened Compare
  import opened Plan
  import opened PlanFacts
  import opened Outcomes
  import opened Drift
  import opened Runs
  import opened History
  import opened Lagging
  import opened Wiring

  // ----- Overrides of services -----

  /** The i-th override is the first with the name. */
  predicate FirstWith(xs: seq<ServiceOverride>, name: string, i: int)
  {
    0 <= i < |xs| && xs[i].name == name && forall j :: 0 <= j < i ==> xs[j].name != name
  }

  predicate LastWith(xs: seq<ServiceOverride>, name: string, i: int)
  {
    0 <= i < |xs| && xs[i].name == name && forall j :: i < j < |xs| ==> xs[j].name != name
  }

  predicate NoneWith(xs: seq<ServiceOverride>, name: string)
  {
    forall j :: 0 <= j < |xs| ==> xs[j].name != name
  }

  lemma {:induction false} FirstNamedIs(xs: seq<ServiceOverride>, name: string)
    ensures NoneWith(xs, name) ==> FirstNamed(xs, name) == ServiceOverride(name, "")
    ensures forall i :: FirstWith(xs, name, i) ==> FirstNamed(xs, name) == xs[i]
  {
    if xs != [] {
      FirstNamedIs(xs[1..], name);
      if xs[0].name != name {
        forall i | FirstWith(xs, name, i) ensures FirstNamed(xs, name) == xs[i] {
          assert FirstWith(xs[1..], name, i - 1);
        }
      }
      if NoneWith(xs, name) { assert xs[0].name != name; }
    }
  }

  lemma LastInFront(xs: seq<ServiceOverride>, name: string, i: int)
    requires xs != [] && LastWith(xs, name, i) && xs[|xs| - 1].name != name
    ensures LastWith(xs[..|xs| - 1], name, i) && xs[..|xs| - 1][i] == xs[i]
  {
  }

  lemma {:induction false} LastNamedIs(xs: seq<ServiceOverride>, name: string)
    ensures NoneWith(xs, name) ==> LastNamed(xs, name) == ServiceOverride(name, "")
    ensures forall i :: LastWith(xs, name, i) ==> LastNamed(xs, name) == xs[i]
    decreases |xs|
  {
    if xs != [] && xs[|xs| - 1].name != name {
      LastNamedIs(xs[..|xs| - 1], name);
      forall i | LastWith(xs, name, i) ensures LastNamed(xs, name) == xs[i] { LastInFront(xs, name, i); }
    }
  }

  /** The service type that a text asks for. */
  predicate AsksFor(text: string, t: ServiceType)
  {
    && (t == LoadBalancer <==> text == "LoadBalancer") && (t == NodePort <==> text == "NodePort")
  }

  /** Without an override a service is internal; with one it is what the first one asks for, or, for UPF, the
      last one. */
  predicate TypeFollows(xs: seq<ServiceOverride>, name: string, last: bool, t: ServiceType)
  {
    && (NoneWith(xs, name) ==> t == ClusterIP)
    && forall i :: 0 <= i < |xs| && (if last then LastWith(xs, name, i) else FirstWith(xs, name, i)) ==> AsksFor(xs[i].serviceType, t)
  }

  lemma TypeFirst(xs: seq<ServiceOverride>, name: string)
    ensures TypeFollows(xs, name, false, TypeNamed(FirstNamed(xs, name).serviceType))
  {
    FirstNamedIs(xs, name);
  }

  lemma TypeLast(xs: seq<ServiceOverride>, name: string)
    ensures TypeFollows(xs, name, true, TypeNamed(LastNamed(xs, name).serviceType))
  {
    LastNamedIs(xs, name);
  }

  /** The services whose type the spec can override. */
  predicate Overridable(c: Component, port: string)
  {
    (c == AMF && port == "ngap") || (c == SMF && port == "pfcp") || (c == UPF && (port == "pfcp" || port == "gtpu"))
  }

  predicate TypedAsAsked(r: Core, c: Component, port: string, t: ServiceType)
  {
    if Overridable(c, port) then TypeFollows(Flags(r, c).service, port, c == UPF, t) else t == ClusterIP
  }

  lemma UpfTyped(r: Core, e: Exposed)
    requires e in ExposedBy(r, UPF)
    ensures TypedAsAsked(r, UPF, e.protocol, e.serviceType)
  {
    ProtocolsDiffer();
    TypeLast(Flags(r, UPF).service, "pfcp");
    TypeLast(Flags(r, UPF).service, "gtpu");
  }

  lemma AmfOrSmfTyped(r: Core, c: Component, e: Exposed)
    requires (c == AMF || c == SMF) && e in ExposedBy(r, c)
    ensures TypedAsAsked(r, c, e.protocol, e.serviceType)
  {
    ProtocolsDiffer();
    TypeFirst(Flags(r, c).service, if c == AMF then "ngap" else "pfcp");
  }

  lemma ExposedTyped(r: Core, c: Component, e: Exposed)
    requires e in ExposedBy(r, c)
    ensures TypedAsAsked(r, c, e.protocol, e.serviceType)
  {
    if c == UPF {
      UpfTyped(r, e);
    } else if c == AMF || c == SMF {
      AmfOrSmfTyped(r, c, e);
    }
  }

  /** Every generated service has the type that the spec asks for. */
  lemma ServiceTypes(r: Core, c: Component, x: Item)
    requires x in ServicesOf(r, c)
    ensures x.obj.body.ServiceBody? && |x.obj.body.service.ports| == 1
    ensures TypedAsAsked(r, c, x.obj.body.service.ports[0].name, x.obj.body.service.serviceType)
  {
    if c != MongoDB {
      var es := ExposedBy(r, c);
      var i :| 0 <= i < |es| && x == CreateService(r.who, c, es[i]);
      ExposedTyped(r, c, es[i]);
    }
  }

  /** The ports of a component, by name. */
  predicate HasPort(r: Core, c: Component, port: string)
  {
    match c
    case AMF => port == "sbi" || port == "ngap" || (port == "metrics" && Flags(r, c).metrics == Some(true))
    case SMF => port in {"sbi", "gtpc", "gtpu", "pfcp"} || (port == "metrics" && Flags(r, c).metrics == Some(true))
    case PCF => port == "sbi" || (port == "metrics" && Flags(r, c).metrics == Some(true))
    case UPF => port == "pfcp" || port == "gtpu" || (port == "metrics" && Flags(r, c).metrics == Some(true))
    case WebUI => port == "http"
    case MongoDB => port == "mongodb"
    case _ => port == "sbi"
  }

  predicate Listens(ports: seq<Port>, name: string)
  {
    exists i :: 0 <= i < |ports| && ports[i].name == name
  }

  lemma ContainerListens(r: Core, c: Component, port: string)
    ensures Listens(ContainerPorts(r, c), port) <==> HasPort(r, c, port)
  {
    var ps := ContainerPorts(r, c);
    if HasPort(r, c, port) {
      var i := PortIndex(r, c, port);
      assert ps[i].name == port;
    }
  }

  lemma PortIndex(r: Core, c: Component, port: string) returns (i: nat)
    requires HasPort(r, c, port)
    ensures i < |ContainerPorts(r, c)| && ContainerPorts(r, c)[i].name == port
  {
    i := if port == "ngap" || port == "gtpc" || (c == UPF && port == "gtpu") || (c == PCF && port == "metrics") then 1
         else if port == "gtpu" || (port == "metrics" && (c == AMF || c == UPF)) then 2
         else if port == "pfcp" && c == SMF then 3
         else if port == "metrics" then 4 else 0;
  }

  lemma ExposedIndex(r: Core, c: Component, port: string) returns (i: nat)
    requires HasPort(r, c, port) && c != MongoDB
    ensures i < |ExposedBy(r, c)| && ExposedBy(r, c)[i].protocol == port
  {
    i := if port == "ngap" || port == "gtpc" || (c == UPF && port == "gtpu") || (c == PCF && port == "metrics") then 1
         else if port == "gtpu" || (port == "metrics" && (c == AMF || c == UPF)) then 2
         else if port == "pfcp" && c == SMF then 3
         else if port == "metrics" then 4 else 0;
  }

  /** A service for a port, under the component's name and the port's. */
  predicate Serves(r: Core, c: Component, port: string, x: Item)
  {
    && x.obj.body.ServiceBody? && |x.obj.body.service.ports| == 1 && x.obj.body.service.ports[0].name == port
    && x.key.kind == Service && x.key.ns == r.who.ns
    && x.key.name == if c == MongoDB then r.who.name + "-mongodb" else r.who.name + "-" + Lower(c) + "-" + port
  }

  lemma MongoServes(r: Core, port: string)
    ensures Serves(r, MongoDB, port, MongoService(r.who)) <==> port == "mongodb"
  {
  }

  lemma ServesOwn(r: Core, c: Component, port: string, e: Exposed)
    requires c != MongoDB
    ensures Serves(r, c, port, CreateService(r.who, c, e)) <==> port == e.protocol
  {
  }

  lemma PortServed(r: Core, c: Component, port: string) returns (x: Item)
    requires HasPort(r, c, port)
    ensures x in ServicesOf(r, c) && Serves(r, c, port, x)
  {
    if c == MongoDB {
      x := MongoService(r.who);
      MongoServes(r, port);
    } else {
      var i := ExposedIndex(r, c, port);
      x := CreateServices(r.who, c, ExposedBy(r, c))[i];
      ServesOwn(r, c, port, ExposedBy(r, c)[i]);
    }
  }

  lemma ServedIsPort(r: Core, c: Component, port: string, x: Item)
    requires x in ServicesOf(r, c) && Serves(r, c, port, x)
    ensures HasPort(r, c, port)
  {
    if c == MongoDB {
      MongoServes(r, port);
    } else {
      var es := ExposedBy(r, c);
      var i :| 0 <= i < |es| && x == CreateService(r.who, c, es[i]);
      ServesOwn(r, c, port, es[i]);
      ExposedHasPort(r, c, es[i]);
    }
  }

  /** Every port of a component has a service under the component's name and the port's, and there is no other
      service. */
  lemma EveryPortIsServed(r: Core, c: Component, port: string)
    ensures HasPort(r, c, port) <==> exists x :: x in ServicesOf(r, c) && Serves(r, c, port, x)
  {
    if HasPort(r, c, port) { var x := PortServed(r, c, port); }
    if x :| x in ServicesOf(r, c) && Serves(r, c, port, x) { ServedIsPort(r, c, port, x); }
  }

  lemma ExposedHasPort(r: Core, c: Component, e: Exposed)
    requires e in ExposedBy(r, c) && c != MongoDB
    ensures HasPort(r, c, e.protocol)
  {
  }

  // ----- What the pods run -----

  /** The program of a network function. */
  function Daemon(c: Component): string
  {
    match c
    case AMF => "open5gs-amfd" case AUSF => "open5gs-ausfd" case BSF => "open5gs-bsfd" case NRF => "open5gs-nrfd"
    case NSSF => "open5gs-nssfd" case SMF => "open5gs-smfd" case PCF => "open5gs-pcfd" case SCP => "open5gs-scpd"
    case UDM => "open5gs-udmd" case UDR => "open5gs-udrd" case UPF => "open5gs-upfd" case _ => ""
  }

  /** The components that are nothing but an Open5GS daemon. UPF is one with an init container. */
  predicate IsFunction(c: Component)
  {
    c !in {UPF, WebUI, MongoDB}
  }

  function ImageFor(s: Spec, c: Component): string
  {
    match c
    case WebUI => s.webuiImage
    case MongoDB => s.mongoVersion
    case _ => s.open5gsImage
  }

  predicate UsesDatabase(c: Component)
  {
    c in {PCF, SCP, UDR, WebUI}
  }

  function ValueIn(env: seq<Env>, name: string): Option<string>
  {
    if env == [] then None else if env[0].name == name then Some(env[0].value) else ValueIn(env[1..], name)
  }

  /** A pod of a component runs one container with the image of the spec; those that use the database find its
      address in their environment. */
  ghost predicate RunsAsAsked(r: Core, c: Component, p: PodSpec)
  {
    && |p.containers| == 1
    && var x := p.containers[0];
    && x.image == ImageFor(r.spec, c)
    && (IsFunction(c) ==> x.command == [] && x.args == [Daemon(c)])
    && (c == UPF ==> if Flags(r, c).unprivileged == Some(true)
          then x.command == ["/opt/open5gs/bin/" + Daemon(c)] && x.args == ["-c", "/opt/open5gs/etc/open5gs/upf.yaml"]
          else x.command == [] && x.args == [Daemon(c)])
    && ValueIn(x.env, "DB_URI") == (if UsesDatabase(c) then Some("mongodb://" + r.who.name + "-mongodb/open5gs") else None)
    && p.serviceAccount == (if Flags(r, c).serviceAccount == Some(true) then r.who.name + "-" + Lower(c) else "default")
  }

  lemma DaemonNamed(c: Component)
    requires c != WebUI && c != MongoDB
    ensures "open5gs-" + Lower(c) + "d" == Daemon(c)
  {
  }

  lemma EnvShows(r: Core, c: Component)
    ensures ValueIn(EnvVars(r, c), "DB_URI") == if UsesDatabase(c) then Some("mongodb://" + r.who.name + "-mongodb/open5gs") else None
  {
    if c == MongoDB { NoDbUri(EnvVars(r, c)); }
  }

  lemma {:induction false} NoDbUri(env: seq<Env>)
    requires forall i :: 0 <= i < |env| ==> env[i].name != "DB_URI"
    ensures ValueIn(env, "DB_URI") == None
  {
    if env != [] { NoDbUri(env[1..]); }
  }

  lemma FunctionRuns(r: Core, c: Component)
    requires IsFunction(c)
    ensures RunsAsAsked(r, c, FunctionPod(r, c))
  {
    DaemonNamed(c);
    EnvShows(r, c);
  }

  lemma UpfRuns(r: Core)
    ensures RunsAsAsked(r, UPF, UpfPod(r))
    ensures |UpfPod(r).initContainers| == 1 && UpfPod(r).initContainers[0].image == r.spec.open5gsImage
  {
    assert "/opt/open5gs/bin/" + Daemon(UPF) == "/opt/open5gs/bin/open5gs-upfd";
  }

  lemma OthersRun(r: Core)
    ensures RunsAsAsked(r, WebUI, WebuiPod(r)) && RunsAsAsked(r, MongoDB, MongoPod(r))
  {
    EnvShows(r, WebUI);
    EnvShows(r, MongoDB);
  }

  lemma PodRuns(r: Core, c: Component)
    ensures RunsAsAsked(r, c, PodOf(r, c))
  {
    match c
    case UPF => UpfRuns(r);
    case WebUI => OthersRun(r);
    case MongoDB => OthersRun(r);
    case _ => FunctionRuns(r, c);
  }

  predicate BringsTunnel(p: PodSpec)
  {
    HostVolume("tun-device", "/dev/net/tun") in p.volumes
  }

  lemma TunnelBrought(r: Core)
    ensures BringsTunnel(UpfPod(r)) <==> Flags(r, UPF).unprivileged == Some(true)
  {
    var p := UpfPod(r);
    if Unprivileged(r) {
      assert p.volumes[2] == HostVolume("tun-device", "/dev/net/tun");
    } else {
      assert |p.volumes| == 2 && p.volumes[0].ConfigVolume? && p.volumes[1].ConfigVolume?;
    }
  }

  lemma PrivilegesDiffer()
    ensures "(user 1001, no capability)" != "(privileged)" && "(root, NET_ADMIN)" != "(privileged)"
  {
    assert "(user 1001, no capability)"[1] == 'u' && "(root, NET_ADMIN)"[1] == 'r' && "(privileged)"[1] == 'p';
  }

  /** A UPF pod that is privileged may do anything; one that is not brings the tunnel device along. The entrypoint
      script is the one for the case. */
  lemma UpfPrivileges(r: Core)
    ensures var p, bare := UpfPod(r), Flags(r, UPF).unprivileged == Some(true);
      && |p.containers| == 1 && |p.initContainers| == 1
      && (bare <==> p.containers[0].fixed != "(privileged)") && (bare <==> p.initContainers[0].fixed != "(privileged)")
      && (bare <==> BringsTunnel(p))
      && EntrypointConfig(r).obj.body.data == map["k8s-entrypoint.sh" := if bare then "(unprivileged)" else "(privileged)"]
  {
    PrivilegesDiffer();
    TunnelBrought(r);
  }

  /** A monitor scrapes ports of the services that it watches. */
  lemma MonitorScrapes(r: Core, c: Component, e: string)
    requires c in {AMF, SMF, PCF, UPF} && Flags(r, c).metrics == Some(true) && e in CreateMonitor(r.who, c).obj.body.monitor.endpoints
    ensures exists x :: x in ServicesOf(r, c) && Serves(r, c, e, x) && Watches(CreateMonitor(r.who, c).obj.body.monitor, x.key, x.obj.labels)
  {
    assert e == "metrics";
    var i := ExposedIndex(r, c, e);
    var es := ExposedBy(r, c);
    var x := CreateServices(r.who, c, es)[i];
    ServesOwn(r, c, e, es[i]);
    MonitorSelectsOwnMetrics(r.who, c, r.who, c, es[i]);
    assert x in ServicesOf(r, c);
  }

  /** MongoDB keeps its data in the claim that is reconciled with it. */
  lemma MongoKeepsData(r: Core)
    ensures ClaimOf(r, MongoDB).Some?
    ensures var x := ClaimOf(r, MongoDB).value;
      && x.key == Key(Claim, r.who.ns, r.who.name + "-mongodb")
      && x.obj.body.claim.storage == "8Gi" && x.obj.body.claim.accessMode == "ReadWriteOnce"
      && exists v :: v in MongoPod(r).volumes && v.ClaimVolume? && v.claim == x.key.name
  {
    assert MongoPod(r).volumes[0].claim == BaseName(r.who.name, MongoDB);
  }

  // ----- What is stored -----

  ghost predicate DeployedAs(r: Core, c: Component, t: Store)
  {
    var k := Key(Deployment, r.who.ns, r.who.name + "-" + Lower(c));
    k in t && t[k].body.DeploymentBody? && RunsAsAsked(r, c, t[k].body.deployment.template.pod)
  }

  lemma WebuiRunsAlike(a: Core, r: Core)
    requires a.who == r.who && SameSeen(a, r) && RunsAsAsked(a, WebUI, PodOf(a, WebUI))
    ensures RunsAsAsked(r, WebUI, PodOf(a, WebUI))
  {
    AccountIsPodAccount(a, WebUI);
  }

  /** After any history of spec edits, with any passes cut short and anything failing, and one complete pass: the
      stored Deployment of a component runs what the present spec asks for. For every component but UPF. */
  lemma StoredRunsAsAsked(w: World, h: Log, r: Resource, c: Component, t: Store)
    requires Wiring.Settled(w, h, r, c, t) && c != UPF
    ensures DeployedAs(r.core, c, t)
  {
    var k := BaseKey(Deployment, r.core.who, c);
    var a := DeploymentFound(w, h, r, c, t);
    assert At(t, k) == Some(MainDeployment(w, a, c).obj);
    DeploymentSelectsItsPods(w, a, c);
    PodRuns(a.core, c);
    if a != r { WebuiRunsAlike(a.core, r.core); }
  }

  /** And its services are there with the types that the present spec asks for, of UPF too. */
  lemma StoredTypesAsAsked(w: World, h: Log, r: Resource, c: Component, t: Store, x: Item)
    requires Wiring.Settled(w, h, r, c, t) && x in ServicesOf(r.core, c)
    ensures x.key in t && t[x.key].body.ServiceBody? && |t[x.key].body.service.ports| == 1
    ensures TypedAsAsked(r.core, c, t[x.key].body.service.ports[0].name, t[x.key].body.service.serviceType)
  {
    AllTargetsStored(w, h, r, c, t);
    ServicesStored(w, r, c, t, x);
    assert At(t, x.key) == Some(x.obj);
    ServiceTypes(r.core, c, x);
  }

  // ----- A new image -----

  /** Nothing but the image of the network functions is edited. */
  predicate ImageEdited(a: Resource, b: Resource)
  {
    b.annotations == a.annotations && b.core == a.core.(spec := a.core.spec.(open5gsImage := b.core.spec.open5gsImage))
    && b.core.spec.open5gsImage != a.core.spec.open5gsImage
  }

  function ImageStored(t: Store, k: Key): Option<string>
  {
    if k in t && t[k].body.DeploymentBody? && |t[k].body.deployment.template.pod.containers| == 1
    then Some(t[k].body.deployment.template.pod.containers[0].image) else None
  }

  lemma UpfKeepsPod(w: World, r: Resource, d: Desired, s: Store, t: Store)
    requires d == DesiredOf(w, r) && Enabled(r.core, UPF) && Completed(PassPlan(d), s, t)
    ensures var k := BaseKey(Deployment, r.core.who, UPF);
      k in s && s[k].body.DeploymentBody? ==>
        k in t && t[k].body.DeploymentBody? && t[k].body.deployment.template.pod == s[k].body.deployment.template.pod
  {
    var k := BaseKey(Deployment, r.core.who, UPF);
    if k in s && s[k].body.DeploymentBody? {
      DesiredIsGood(w, r);
      BundlesOfDesired(w, r, UPF);
      DeploymentKey(r.core.who, UPF);
      CompletePass(d, UPF, k, s, t);
      BuilderStep(w, r, d, UPF, At(s, k));
      DeploymentTarget(w, r, UPF);
      BaseIsUpf(r.core.who, UPF);
      UpfReconciled(r.core.who, k, MainDeployment(w, r, UPF).obj, s[k]);
      assert At(t, k) == Some(t[k]);
    }
  }

  lemma UpfReconciled(who: Who, k: Key, want: Obj, found: Obj)
    requires IsUpf(who, k) && found.body.DeploymentBody?
    ensures var after := Reconciled(who, k, want, found);
      after.body.DeploymentBody? && after.body.deployment.template.pod == found.body.deployment.template.pod
  {
  }

  lemma OneMorePass(f: Planner, who: Who, h: Log, a: Resource, t: Store)
    requires Attempts(f, who, h) && a.core.who == who && Done(f, a, Last(h), t)
    ensures var g := Pass(h, a, t); Attempts(f, who, g) && First(g) == First(h) && Last(g) == t
  {
    CompleteIsAttempt(f, a, Last(h), t);
  }

  lemma SettledAgain(w: World, h: Log, a: Resource, b: Resource, c: Component, t: Store, u: Store)
    requires Wiring.Settled(w, h, a, c, t) && Done(Builders(w), b, t, u) && b.core.who == a.core.who && Enabled(b.core, c)
    ensures Wiring.Settled(w, Pass(h, a, t), b, c, u)
  {
    OneMorePass(Builders(w), a.core.who, h, a, t);
  }

  lemma DeployedImage(r: Core, c: Component, t: Store)
    requires DeployedAs(r, c, t)
    ensures ImageStored(t, Key(Deployment, r.who.ns, r.who.name + "-" + Lower(c))) == Some(ImageFor(r.spec, c))
  {
  }

  lemma ImageKept(a: Core, b: Core, c: Component)
    requires b == a.(spec := a.spec.(open5gsImage := b.spec.open5gsImage)) && b.spec.open5gsImage != a.spec.open5gsImage
    ensures ImageFor(a.spec, c) == ImageFor(b.spec, c) <==> c == WebUI || c == MongoDB
    ensures Enabled(b, c) <==> Enabled(a, c)
  {
    assert Flags(b, c) == Flags(a, c);
  }

  lemma ImagesOfTwo(w: World, h: Log, a: Resource, b: Resource, c: Component, t: Store, u: Store)
    requires Wiring.Settled(w, h, a, c, t) && ImageEdited(a, b) && Done(Builders(w), b, t, u) && c != UPF
    ensures var k := Key(Deployment, a.core.who.ns, a.core.who.name + "-" + Lower(c));
      ImageStored(t, k) == Some(ImageFor(a.core.spec, c)) && ImageStored(u, k) == Some(ImageFor(b.core.spec, c))
  {
    ImageKept(a.core, b.core, c);
    SettledAgain(w, h, a, b, c, t, u);
    StoredRunsAsAsked(w, h, a, c, t);
    StoredRunsAsAsked(w, Pass(h, a, t), b, c, u);
    DeployedImage(a.core, c, t);
    DeployedImage(b.core, c, u);
  }

  lemma UpfImageKept(w: World, a: Resource, b: Resource, d: Desired, t: Store, u: Store)
    requires d == DesiredOf(w, b) && Enabled(a.core, UPF) && ImageEdited(a, b) && Completed(PassPlan(d), t, u)
    requires ImageStored(t, BaseKey(Deployment, a.core.who, UPF)).Some?
    ensures ImageStored(u, BaseKey(Deployment, a.core.who, UPF)) == ImageStored(t, BaseKey(Deployment, a.core.who, UPF))
  {
    ImageKept(a.core, b.core, UPF);
    UpfKeepsPod(w, b, d, t, u);
  }

  /** After any history and a complete pass, an edit of the image of the network functions and another complete
      pass change the image in the stored Deployment of every enabled network function but UPF, and of no other
      component. UPF keeps running the image under which it was created. */
  lemma NewImageRollsOut(w: World, h: Log, a: Resource, b: Resource, c: Component, t: Store, u: Store)
    requires Wiring.Settled(w, h, a, c, t) && ImageEdited(a, b) && Done(Builders(w), b, t, u)
    requires ImageStored(t, Key(Deployment, a.core.who.ns, a.core.who.name + "-" + Lower(c))).Some?
    ensures var k := Key(Deployment, a.core.who.ns, a.core.who.name + "-" + Lower(c));
      && ImageStored(u, k).Some?
      && (ImageStored(u, k) != ImageStored(t, k) <==> IsFunction(c))
      && (IsFunction(c) ==> ImageStored(u, k) == Some(b.core.spec.open5gsImage))
  {
    if c == UPF {
      UpfImageKept(w, a, b, Builders(w)(b), t, u);
    } else {
      ImageKept(a.core, b.core, c);
      ImagesOfTwo(w, h, a, b, c, t, u);
    }
  }
}
