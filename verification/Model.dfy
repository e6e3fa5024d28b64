/** The values the operator handles: components, object keys, objects and the custom resource. */
module Model {
  import opened Text

  datatype Component =
    AMF | AUSF | BSF | NRF | NSSF | SMF | PCF | SCP | UDM | UDR | UPF | WebUI | MongoDB

  /** The order in which one pass of the reconciler visits the components. */
  function Order(): seq<Component> {
    [AMF, AUSF, BSF, NRF, NSSF, SMF, PCF, SCP, UDM, UDR, UPF, WebUI, MongoDB]
  }

  function Lower(c: Component): string
  {
    match c
    case AMF => "amf"
    case AUSF => "ausf"
    case BSF => "bsf"
    case NRF => "nrf"
    case NSSF => "nssf"
    case SMF => "smf"
    case PCF => "pcf"
    case SCP => "scp"
    case UDM => "udm"
    case UDR => "udr"
    case UPF => "upf"
    case WebUI => "webui"
    case MongoDB => "mongodb"
  }

  // ----- Cluster objects -----

  datatype Kind = ConfigMap | Deployment | Service | ServiceMonitor | Claim | ServiceAccount

  datatype Key = Key(kind: Kind, ns: string, name: string)

  /** The label keys the operator writes; a user's object may carry any other. */
  datatype LabelKey = Instance | Name | Part | Release | Other(key: string)

  type Labels = map<LabelKey, string>
  type Data = map<string, string>

  datatype L4 = TCP | UDP | SCTP
  datatype Port = Port(name: string, number: int, l4: L4)

  datatype ServiceType = ClusterIP | NodePort | LoadBalancer
  datatype ServicePort = ServicePort(name: string, number: int, l4: L4, target: string)
  datatype ServiceSpec = ServiceSpec(serviceType: ServiceType, selector: Labels, ports: seq<ServicePort>)

  datatype Env = Env(name: string, value: string)
  datatype Mount = Mount(name: string, path: string, subPath: string)
  datatype Volume =
    | ConfigVolume(name: string, configMap: string)
    | ClaimVolume(name: string, claim: string)
    | HostVolume(name: string, path: string)

  /** `fixed` stands for the probes and the security context, which are constants of the generator. */
  datatype Container = Container(
    name: string, image: string, command: seq<string>, args: seq<string>, ports: seq<Port>,
    env: seq<Env>, mounts: seq<Mount>, fixed: string)

  datatype PodSpec = PodSpec(
    serviceAccount: string, containers: seq<Container>, initContainers: seq<Container>,
    volumes: seq<Volume>, fixed: string)

  datatype Template = Template(labels: Labels, annotations: map<string, string>, pod: PodSpec)

  datatype DeploymentSpec = DeploymentSpec(selector: Labels, template: Template, strategy: string)

  datatype MonitorSpec = MonitorSpec(selector: Labels, namespaces: seq<string>, endpoints: seq<string>)

  datatype ClaimSpec = ClaimSpec(storage: string, accessMode: string, other: string)

  datatype Body =
    | ConfigBody(data: Data)
    | DeploymentBody(deployment: DeploymentSpec)
    | ServiceBody(service: ServiceSpec)
    | MonitorBody(monitor: MonitorSpec)
    | ClaimBody(claim: ClaimSpec)
    | AccountBody(automount: bool)

  /** `owners` are the UIDs of the owner references. */
  datatype Obj = Obj(labels: Labels, annotations: map<string, string>, owners: seq<string>, body: Body)

  function BodyKind(b: Body): Kind
  {
    match b
    case ConfigBody(_) => ConfigMap
    case DeploymentBody(_) => Deployment
    case ServiceBody(_) => Service
    case MonitorBody(_) => ServiceMonitor
    case ClaimBody(_) => Claim
    case AccountBody(_) => ServiceAccount
  }

  type Slot = Option<Obj>
  type Store = map<Key, Obj>

  function At(s: Store, k: Key): Slot
  {
    if k in s then Some(s[k]) else None
  }

  lemma StoresEqual(s: Store, t: Store)
    requires forall k :: At(s, k) == At(t, k)
    ensures s == t
  {
    forall k ensures (k in s <==> k in t) && (k in s ==> s[k] == t[k]) {
      assert At(s, k) == At(t, k);
    }
    assert s.Keys == t.Keys;
  }

  // ----- The Open5GS custom resource -----

  datatype Who = Who(ns: string, name: string, uid: string)

  datatype ServiceOverride = ServiceOverride(name: string, serviceType: string)

  datatype Slice = Slice(sst: string, sd: string)

  datatype Configuration = Configuration(
    mcc: string, mnc: string, region: string, set_: string, tac: string, slices: Option<seq<Slice>>)

  /** One `Open5GSFunction`; `None` is a nil pointer. */
  datatype Function = Function(
    enabled: Option<bool>, serviceAccount: Option<bool>, metrics: Option<bool>,
    serviceMonitor: Option<bool>, service: seq<ServiceOverride>, gtpuDev: string,
    unprivileged: Option<bool>)

  /** A component that is absent from `functions` is the zero struct of the CR. */
  datatype Spec = Spec(
    functions: map<Component, Function>, webuiImage: string, open5gsImage: string,
    mongoVersion: string, configuration: Configuration)

  /** A custom resource without its UPF annotations, which only one builder reads. */
  datatype Core = Core(who: Who, spec: Spec)

  /** A custom resource as one pass reads it; `annotations` is `upf.deploymentAnnotations`. */
  datatype Resource = Resource(core: Core, annotations: map<string, string>)

  function ZeroFunction(): Function {
    Function(None, None, None, None, [], "", None)
  }

  function Fn(s: Spec, c: Component): Function
  {
    if c in s.functions then s.functions[c] else ZeroFunction()
  }

  predicate HasMetrics(c: Component)
  {
    c in {AMF, SMF, PCF, UPF}
  }

  function Fill<T>(o: Option<T>, value: T): Option<T>
  {
    if o.None? then Some(value) else o
  }

  function FillText(s: string, value: string): string
  {
    if s == "" then value else s
  }

  function DefaultFunction(c: Component, f: Function): Function
  {
    f.(enabled := Fill(f.enabled, c != WebUI),
       serviceAccount := Fill(f.serviceAccount, false),
       metrics := if HasMetrics(c) then Fill(f.metrics, true) else f.metrics,
       serviceMonitor := if HasMetrics(c) then Fill(f.serviceMonitor, true) else f.serviceMonitor,
       gtpuDev := if c == UPF then FillText(f.gtpuDev, "eth0") else f.gtpuDev,
       unprivileged := if c == UPF then Fill(f.unprivileged, false) else f.unprivileged)
  }

  function DefaultConfiguration(c: Configuration): Configuration
  {
    Configuration(FillText(c.mcc, "999"), FillText(c.mnc, "70"), FillText(c.region, "2"),
                  FillText(c.set_, "1"), FillText(c.tac, "0001"), Fill(c.slices, [Slice("1", "0xffffff")]))
  }

  /** setDefaultValues */
  function Defaulted(s: Spec): Spec
  {
    Spec(map c | c in Order() :: DefaultFunction(c, Fn(s, c)),
         FillText(s.webuiImage, "docker.io/gradiant/open5gs-webui:2.7.5"),
         FillText(s.open5gsImage, "docker.io/gradiant/open5gs:2.7.5"),
         FillText(s.mongoVersion, "bitnami/mongodb:latest"),
         DefaultConfiguration(s.configuration))
  }

  function Rank(c: Component): nat
  {
    match c
    case AMF => 0 case AUSF => 1 case BSF => 2 case NRF => 3 case NSSF => 4 case SMF => 5
    case PCF => 6 case SCP => 7 case UDM => 8 case UDR => 9 case UPF => 10 case WebUI => 11
    case MongoDB => 12
  }

  lemma OrderIsComplete(c: Component)
    ensures c in Order()
  {
    assert Order()[Rank(c)] == c;
  }

  lemma OrderRanks(i: nat)
    requires i < |Order()|
    ensures Rank(Order()[i]) == i
  {
  }

  predicate Distinct(cs: seq<Component>)
  {
    forall i, j :: 0 <= i < |cs| && 0 <= j < |cs| && cs[i] == cs[j] ==> i == j
  }

  lemma OrderDistinct()
    ensures Distinct(Order())
  {
    forall i, j | 0 <= i < |Order()| && 0 <= j < |Order()| && Order()[i] == Order()[j] ensures i == j {
      OrderRanks(i);
      OrderRanks(j);
    }
  }

  lemma DefaultedFn(s: Spec, c: Component)
    ensures Fn(Defaulted(s), c) == DefaultFunction(c, Fn(s, c))
  {
    OrderIsComplete(c);
  }

  /** `after` is `before`, or the default where nothing was given. */
  predicate Filled<T(==)>(before: Option<T>, after: Option<T>, default: T)
  {
    after == if before.Some? then before else Some(default)
  }

  predicate TextFilled(before: string, after: string, default: string)
  {
    after == (if before == "" then default else before) && (default != "" ==> after != "")
  }

  /** Defaults leave no pointer nil that a pass dereferences and no text empty that it renders, and change
      nothing that was given. */
  lemma DefaultsFillOnlyMissing(s: Spec, c: Component)
    ensures var f, g := Fn(s, c), Fn(Defaulted(s), c);
      && Filled(f.enabled, g.enabled, c != WebUI) && Filled(f.serviceAccount, g.serviceAccount, false)
      && (if HasMetrics(c) then Filled(f.metrics, g.metrics, true) && Filled(f.serviceMonitor, g.serviceMonitor, true)
          else g.metrics == f.metrics && g.serviceMonitor == f.serviceMonitor)
      && (if c == UPF then TextFilled(f.gtpuDev, g.gtpuDev, "eth0") && Filled(f.unprivileged, g.unprivileged, false)
          else g.gtpuDev == f.gtpuDev && g.unprivileged == f.unprivileged)
      && g.service == f.service
    ensures var d := Defaulted(s);
      && TextFilled(s.webuiImage, d.webuiImage, "docker.io/gradiant/open5gs-webui:2.7.5")
      && TextFilled(s.open5gsImage, d.open5gsImage, "docker.io/gradiant/open5gs:2.7.5")
      && TextFilled(s.mongoVersion, d.mongoVersion, "bitnami/mongodb:latest")
    ensures var a, b := s.configuration, Defaulted(s).configuration;
      && TextFilled(a.mcc, b.mcc, "999") && TextFilled(a.mnc, b.mnc, "70") && TextFilled(a.region, b.region, "2")
      && TextFilled(a.set_, b.set_, "1") && TextFilled(a.tac, b.tac, "0001") && Filled(a.slices, b.slices, [Slice("1", "0xffffff")])
  {
    DefaultedFn(s, c);
  }

  /** Defaulting twice is defaulting once. */
  lemma DefaultsAreIdempotent(s: Spec)
    ensures Defaulted(Defaulted(s)) == Defaulted(s)
  {
    forall c ensures Fn(Defaulted(s), c) == DefaultFunction(c, Fn(s, c)) { DefaultedFn(s, c); }
    forall c | c in Order() ensures DefaultFunction(c, Fn(Defaulted(s), c)) == DefaultFunction(c, Fn(s, c)) {}
    assert Defaulted(Defaulted(s)).functions == Defaulted(s).functions;
  }

  /** Whether an optional flag is set (`x != nil && *x`). */
  predicate On(o: Option<bool>)
  {
    o == Some(true)
  }

  /** The resource as builders see it, after setDefaultValues. */
  function WithDefaults(r: Resource): Resource
  {
    r.(core := r.core.(spec := Defaulted(r.core.spec)))
  }

  function Flags(r: Core, c: Component): Function
  {
    Fn(r.spec, c)
  }

  predicate Enabled(r: Core, c: Component)
  {
    On(Flags(r, c).enabled)
  }
}
