/** The desired objects of one custom resource, component by component. */
module Resources {
  import opened Text
  import opened Model
  import opened Names
  import opened Config

  /** What a pass takes from its surroundings: the data that the builders put into a component's ConfigMap,
      the hash of such data, and whether the ServiceMonitor CRD is installed. Most of what passes do does not
      depend on the data, and holds for any. */
  datatype World = World(data: (Core, Component) -> Data, digest: Data -> string, crd: bool)

  ghost predicate Injective(digest: Data -> string)
  {
    forall a, b :: digest(a) == digest(b) ==> a == b
  }

  /** The builders' data are the rendered texts. */
  ghost predicate Renders(w: World)
  {
    forall r: Core, c: Component {:trigger ConfigData(r, c)} :: w.data(r, c) == ConfigData(r, c)
  }

  /** And the hash of data identifies them. */
  ghost predicate Faithful(w: World)
  {
    Renders(w) && Injective(w.digest)
  }

  function HashKey(): string {
    "open5gs/configmap-hash"
  }

  datatype Item = Item(key: Key, obj: Obj)

  function OwnLabels(inst: string, c: Component): Labels
  {
    map[Instance := inst, Name := Lower(c)]
  }

  /** A generated object: no annotations, and the controller reference of its CR. */
  function Generated(who: Who, labels: Labels, body: Body): Obj
  {
    Obj(labels, map[], [who.uid], body)
  }

  function BaseKey(kind: Kind, who: Who, c: Component): Key
  {
    Key(kind, who.ns, BaseName(who.name, c))
  }

  function Metrics(r: Core, c: Component): bool
  {
    HasMetrics(c) && On(Flags(r, c).metrics)
  }

  // ----- ConfigMaps -----

  function MainConfigKey(who: Who, c: Component): Key
  {
    if c == MongoDB then Key(ConfigMap, who.ns, ServiceName(who.name, c, "common-scripts"))
    else BaseKey(ConfigMap, who, c)
  }

  function EntrypointKey(who: Who): Key
  {
    Key(ConfigMap, who.ns, ServiceName(who.name, UPF, "entrypoint"))
  }

  /** The files of AMF and NSSF, the only ones that show the slices. */
  function SlicedData(inst: string, cfg: Configuration, metrics: bool, amf: bool): Data
  {
    if amf then map["amf.yaml" := AmfText(inst, cfg, metrics)] else map["nssf.yaml" := NssfText(inst, cfg)]
  }

  /** What the other components' files depend on. */
  datatype Inputs = Inputs(inst: string, mcc: string, mnc: string, gtpuDev: string, metrics: bool)

  function InputsOf(r: Core, c: Component): Inputs
  {
    Inputs(r.who.name, r.spec.configuration.mcc, r.spec.configuration.mnc, Flags(r, UPF).gtpuDev, Metrics(r, c))
  }

  /** The files of the other components. The scripts of WebUI and MongoDB are constants. */
  function PlainData(i: Inputs, c: Component): Data
  {
    var inst := i.inst;
    match c
    case AUSF => map["ausf.yaml" := PlainText(inst, "ausf", [])]
    case BSF => map["bsf.yaml" := PlainText(inst, "bsf", [])]
    case NRF => map["nrf.yaml" := NrfText(i.mcc, i.mnc)]
    case SMF => map["smf.yaml" := SmfText(inst, i.metrics)]
    case PCF => map["pcf.yaml" := PcfText(inst, i.metrics)]
    case SCP => map["scp.yaml" := ScpText(inst)]
    case UDM => map["udm.yaml" := PlainText(inst, "udm", HnetLines())]
    case UDR => map["udr.yaml" := PlainText(inst, "udr", [])]
    case UPF => map["upf.yaml" := UpfText(i.gtpuDev, i.metrics)]
    case WebUI => map["add_admin.sh" := "(add_admin)"]
    case MongoDB => map["ping-mongodb.sh" := "(ping)", "readiness-probe.sh" := "(ready)", "startup-probe.sh" := "(start)"]
    case _ => map[]
  }

  function ConfigData(r: Core, c: Component): Data
  {
    if c == AMF || c == NSSF then SlicedData(r.who.name, r.spec.configuration, Metrics(r, c), c == AMF)
    else PlainData(InputsOf(r, c), c)
  }

  function MainConfig(w: World, r: Core, c: Component): Item
  {
    Item(MainConfigKey(r.who, c), Generated(r.who, OwnLabels(r.who.name, c), ConfigBody(w.data(r, c))))
  }

  function Unprivileged(r: Core): bool
  {
    On(Flags(r, UPF).unprivileged)
  }

  function EntrypointConfig(r: Core): Item
  {
    var script := if Unprivileged(r) then "(unprivileged)" else "(privileged)";
    Item(EntrypointKey(r.who),
         Generated(r.who, OwnLabels(r.who.name, UPF), ConfigBody(map["k8s-entrypoint.sh" := script])))
  }

  // ----- Deployments -----

  function AccountName(r: Core, c: Component): string
  {
    if On(Flags(r, c).serviceAccount) then BaseName(r.who.name, c) else "default"
  }

  function MetricsPort(r: Core, c: Component): seq<Port>
  {
    if Metrics(r, c) then [Port("metrics", 9090, TCP)] else []
  }

  function ContainerPorts(r: Core, c: Component): seq<Port>
  {
    var sbi := Port("sbi", 7777, TCP);
    match c
    case AMF => [sbi, Port("ngap", 38412, SCTP)] + MetricsPort(r, c)
    case PCF => [sbi] + MetricsPort(r, c)
    case SMF =>
      [sbi, Port("gtpc", 2123, UDP), Port("gtpu", 2152, UDP), Port("pfcp", 8805, UDP)] + MetricsPort(r, c)
    case UPF => [Port("pfcp", 8805, UDP), Port("gtpu", 2152, UDP)] + MetricsPort(r, c)
    case WebUI => [Port("http", 9999, TCP)]
    case MongoDB => [Port("mongodb", 27017, TCP)]
    case _ => [sbi]
  }

  function DbUri(inst: string): Env
  {
    Env("DB_URI", "mongodb://" + inst + "-mongodb/open5gs")
  }

  function EnvVars(r: Core, c: Component): seq<Env>
  {
    match c
    case PCF | SCP | UDR | WebUI => [DbUri(r.who.name)]
    case MongoDB =>
      [Env("BITNAMI_DEBUG", "false"), Env("ALLOW_EMPTY_PASSWORD", "yes"),
       Env("MONGODB_SYSTEM_LOG_VERBOSITY", "0"), Env("MONGODB_DISABLE_SYSTEM_LOG", "no"),
       Env("MONGODB_DISABLE_JAVASCRIPT", "no"), Env("MONGODB_ENABLE_JOURNAL", "yes"),
       Env("MONGODB_PORT_NUMBER", "27017"), Env("MONGODB_ENABLE_IPV6", "no"),
       Env("MONGODB_ENABLE_DIRECTORY_PER_DB", "no")]
    case _ => []
  }

  function FunctionPod(r: Core, c: Component): PodSpec
  {
    var inst, file := r.who.name, Lower(c) + ".yaml";
    PodSpec(AccountName(r, c),
            [Container(BaseName(inst, c), r.spec.open5gsImage, [], ["open5gs-" + Lower(c) + "d"],
                       ContainerPorts(r, c), EnvVars(r, c),
                       [Mount("config", "/opt/open5gs/etc/open5gs/" + file, file)], "(sbi probes, user 1001)")],
            [], [ConfigVolume("config", BaseName(inst, c))], "(group 1001)")
  }

  function UpfPod(r: Core): PodSpec
  {
    var inst, image, bare := r.who.name, r.spec.open5gsImage, Unprivileged(r);
    var tunMount := if bare then [Mount("tun-device", "/dev/net/tun", "")] else [];
    var main := Container("open5gs-upf", image,
      if bare then ["/opt/open5gs/bin/open5gs-upfd"] else [],
      if bare then ["-c", "/opt/open5gs/etc/open5gs/upf.yaml"] else ["open5gs-upfd"],
      ContainerPorts(r, UPF), [],
      [Mount("config", "/opt/open5gs/etc/open5gs/upf.yaml", "upf.yaml")] + tunMount,
      if bare then "(user 1001, no capability)" else "(privileged)");
    var init := Container("tun-create", image, ["/bin/bash", "-c", "/k8s-entrypoint.sh"], [], [], [],
      [Mount("entrypoint", "/k8s-entrypoint.sh", "k8s-entrypoint.sh")] + tunMount,
      if bare then "(root, NET_ADMIN)" else "(privileged)");
    PodSpec(AccountName(r, UPF), [main], [init],
            [ConfigVolume("config", BaseName(inst, UPF)),
             ConfigVolume("entrypoint", ServiceName(inst, UPF, "entrypoint"))]
            + (if bare then [HostVolume("tun-device", "/dev/net/tun")] else []),
            if bare then "(group 1001, ip_forward)" else "(group 1001)")
  }

  function WebuiPod(r: Core): PodSpec
  {
    var inst := r.who.name;
    PodSpec(AccountName(r, WebUI),
            [Container("open5gs-webui", r.spec.webuiImage, [], [], ContainerPorts(r, WebUI),
                       EnvVars(r, WebUI), [Mount("populate", "/opt/open5gs/etc/open5gs/", "")], "(http probes, user 999)")],
            [Container("init", r.spec.mongoVersion, ["/bin/bash", "/add_admin.sh"], [], [], [DbUri(inst)],
                       [Mount("populate", "/add_admin.sh", "add_admin.sh")], "")],
            [ConfigVolume("populate", BaseName(inst, WebUI))], "(group 999)")
  }

  function MongoPod(r: Core): PodSpec
  {
    var inst := r.who.name;
    PodSpec(AccountName(r, MongoDB),
            [Container("mongodb", r.spec.mongoVersion, [], [], ContainerPorts(r, MongoDB), EnvVars(r, MongoDB),
                       [Mount("datadir", "/bitnami/mongodb", ""), Mount("common-scripts", "/bitnami/scripts", "")],
                       "(script probes, user 999)")],
            [], [ClaimVolume("datadir", BaseName(inst, MongoDB)),
                 ConfigVolume("common-scripts", ServiceName(inst, MongoDB, "common-scripts"))], "(group 999)")
  }

  function PodOf(r: Core, c: Component): PodSpec
  {
    match c
    case UPF => UpfPod(r)
    case WebUI => WebuiPod(r)
    case MongoDB => MongoPod(r)
    case _ => FunctionPod(r, c)
  }

  function PodLabels(inst: string, c: Component): Labels
  {
    if c == MongoDB then OwnLabels(inst, c)[Part := "mongodb"] else OwnLabels(inst, c)
  }

  /** The template annotations: the user's for UPF, and the hash of the data in every case. */
  function PodAnnotations(w: World, r: Resource, c: Component): map<string, string>
  {
    (if c == UPF then r.annotations else map[])[HashKey() := w.digest(w.data(r.core, c))]
  }

  function DeploymentOf(w: World, r: Resource, c: Component): DeploymentSpec
  {
    var labels := PodLabels(r.core.who.name, c);
    DeploymentSpec(labels, Template(labels, PodAnnotations(w, r, c), PodOf(r.core, c)),
                   if c == WebUI || c == MongoDB then "Recreate" else "")
  }

  function MainDeployment(w: World, r: Resource, c: Component): Item
  {
    var who := r.core.who;
    Item(BaseKey(Deployment, who, c),
         Generated(who, OwnLabels(who.name, c), DeploymentBody(DeploymentOf(w, r, c))))
  }

  // ----- Services -----

  function TypeNamed(t: string): ServiceType
  {
    if t == "LoadBalancer" then LoadBalancer else if t == "NodePort" then NodePort else ClusterIP
  }

  /** The first override with the name (AMF and SMF stop at it). */
  function FirstNamed(xs: seq<ServiceOverride>, name: string): ServiceOverride
  {
    if xs == [] then ServiceOverride(name, "")
    else if xs[0].name == name then xs[0] else FirstNamed(xs[1..], name)
  }

  /** The last override with the name (UPF reads the whole list). */
  function LastNamed(xs: seq<ServiceOverride>, name: string): ServiceOverride
  {
    if xs == [] then ServiceOverride(name, "")
    else if xs[|xs| - 1].name == name then xs[|xs| - 1] else LastNamed(xs[..|xs| - 1], name)
  }

  /** One call of CreateService. */
  datatype Exposed = Exposed(protocol: string, number: int, l4: L4, serviceType: ServiceType)

  function CreateService(who: Who, c: Component, e: Exposed): Item
  {
    var labels := OwnLabels(who.name, c);
    Item(Key(Service, who.ns, ServiceName(who.name, c, e.protocol)),
         Generated(who, if e.protocol == "metrics" then labels[Part := "metrics"] else labels,
                   ServiceBody(ServiceSpec(e.serviceType, labels,
                                           [ServicePort(e.protocol, e.number, e.l4, e.protocol)]))))
  }

  function CreateServices(who: Who, c: Component, es: seq<Exposed>): (xs: seq<Item>)
    ensures |xs| == |es| && forall i :: 0 <= i < |es| ==> xs[i] == CreateService(who, c, es[i])
  {
    if es == [] then [] else [CreateService(who, c, es[0])] + CreateServices(who, c, es[1..])
  }

  function MongoService(who: Who): Item
  {
    Item(Key(Service, who.ns, BaseName(who.name, MongoDB)),
         Generated(who, OwnLabels(who.name, MongoDB),
                   ServiceBody(ServiceSpec(ClusterIP, PodLabels(who.name, MongoDB),
                                           [ServicePort("mongodb", 27017, TCP, "mongodb")]))))
  }

  function MetricsService(r: Core, c: Component): seq<Exposed>
  {
    if Metrics(r, c) then [Exposed("metrics", 9090, TCP, ClusterIP)] else []
  }

  function ExposedBy(r: Core, c: Component): seq<Exposed>
  {
    var sbi := Exposed("sbi", 7777, TCP, ClusterIP);
    var over := Flags(r, c).service;
    match c
    case AMF =>
      [sbi, Exposed("ngap", 38412, SCTP, TypeNamed(FirstNamed(over, "ngap").serviceType))] + MetricsService(r, c)
    case SMF =>
      [sbi, Exposed("gtpc", 2123, UDP, ClusterIP), Exposed("gtpu", 2152, UDP, ClusterIP),
       Exposed("pfcp", 8805, UDP, TypeNamed(FirstNamed(over, "pfcp").serviceType))] + MetricsService(r, c)
    case PCF => [sbi] + MetricsService(r, c)
    case UPF =>
      [Exposed("pfcp", 8805, UDP, TypeNamed(LastNamed(over, "pfcp").serviceType)),
       Exposed("gtpu", 2152, UDP, TypeNamed(LastNamed(over, "gtpu").serviceType))] + MetricsService(r, c)
    case WebUI => [Exposed("http", 9999, TCP, ClusterIP)]
    case MongoDB => []
    case _ => [sbi]
  }

  function ServicesOf(r: Core, c: Component): seq<Item>
  {
    if c == MongoDB then [MongoService(r.who)] else CreateServices(r.who, c, ExposedBy(r, c))
  }

  /** The override loop of reconcileAMF and reconcileSMF, which breaks at the first match. */
  method FindFirst(xs: seq<ServiceOverride>, name: string) returns (found: ServiceOverride)
    ensures found == FirstNamed(xs, name)
  {
    found := ServiceOverride(name, "");
    for i := 0 to |xs|
      invariant found == ServiceOverride(name, "")
      invariant FirstNamed(xs, name) == FirstNamed(xs[i..], name)
    {
      if xs[i].name == name {
        return xs[i];
      }
    }
  }

  /** The override loop of reconcileUPF, which keeps the last match. */
  method FindLast(xs: seq<ServiceOverride>, name: string) returns (found: ServiceOverride)
    ensures found == LastNamed(xs, name)
  {
    found := ServiceOverride(name, "");
    for i := 0 to |xs|
      invariant found == LastNamed(xs[..i], name)
    {
      assert xs[..i + 1][..i] == xs[..i];
      if xs[i].name == name {
        found := xs[i];
      }
    }
    assert xs[..|xs|] == xs;
  }

  // ----- ServiceMonitor, PersistentVolumeClaim, ServiceAccount -----

  function MonitorLabels(inst: string, c: Component): Labels
  {
    OwnLabels(inst, c)[Part := "metrics"]
  }

  function CreateMonitor(who: Who, c: Component): Item
  {
    Item(BaseKey(ServiceMonitor, who, c),
         Generated(who, MonitorLabels(who.name, c)[Release := "prometheus"],
                   MonitorBody(MonitorSpec(MonitorLabels(who.name, c), [who.ns], ["metrics"]))))
  }

  function MonitorOf(r: Core, c: Component): Option<Item>
  {
    if HasMetrics(c) && On(Flags(r, c).serviceMonitor) then Some(CreateMonitor(r.who, c)) else None
  }

  function CreateClaim(who: Who): Item
  {
    Item(BaseKey(Claim, who, MongoDB),
         Generated(who, OwnLabels(who.name, MongoDB), ClaimBody(ClaimSpec("8Gi", "ReadWriteOnce", ""))))
  }

  function ClaimOf(r: Core, c: Component): Option<Item>
  {
    if c == MongoDB then Some(CreateClaim(r.who)) else None
  }

  function CreateAccount(who: Who, c: Component): Item
  {
    Item(BaseKey(ServiceAccount, who, c), Generated(who, OwnLabels(who.name, c), AccountBody(true)))
  }

  function AccountOf(r: Core, c: Component): Option<Item>
  {
    if On(Flags(r, c).serviceAccount) then Some(CreateAccount(r.who, c)) else None
  }

  // ----- Everything one component wants, and everything one CR wants -----

  datatype Bundle = Bundle(
    extra: Option<Item>, config: Item, deployment: Item, services: seq<Item>,
    monitor: Option<Item>, claim: Option<Item>, account: Option<Item>)

  function BundleOf(w: World, r: Resource, c: Component): Bundle
  {
    var core := r.core;
    Bundle(if c == UPF then Some(EntrypointConfig(core)) else None,
           MainConfig(w, core, c), MainDeployment(w, r, c), ServicesOf(core, c),
           MonitorOf(core, c), ClaimOf(core, c), AccountOf(core, c))
  }

  /** The desired state that a pass works towards. Components without a bundle are torn down; `monitored`
      are those at whose turn the ServiceMonitor CRD is found installed. */
  datatype Desired = Desired(who: Who, monitored: set<Component>, bundles: map<Component, Bundle>)

  function Everyone(): set<Component>
  {
    set c | c in Order()
  }

  lemma EveryoneIsThere(c: Component)
    ensures c in Everyone()
  {
    OrderIsComplete(c);
  }

  function DesiredOf(w: World, r: Resource): Desired
  {
    Desired(r.core.who, if w.crd then Everyone() else {}, map c: Component | Enabled(r.core, c) :: BundleOf(w, r, c))
  }
}
