/** Reconciling one stored object towards the generated one, kind by kind. */
module Compare {
  import opened Text
  import opened Model
  import opened Names
  import opened Resources

  predicate HasOwner(o: Obj, uid: string)
  {
    uid in o.owners
  }

  predicate ConfigMapEqual(a: Obj, b: Obj)
  {
    a.body == b.body && a.labels == b.labels && a.annotations == b.annotations
  }

  function Images(p: PodSpec): seq<string>
  {
    seq(|p.containers|, i requires 0 <= i < |p.containers| => p.containers[i].image)
  }

  /** The drift check on Deployments: labels, service account and container images only. */
  predicate DeploymentEqual(aLabels: Labels, a: DeploymentSpec, bLabels: Labels, b: DeploymentSpec)
  {
    && aLabels == bLabels
    && a.template.pod.serviceAccount == b.template.pod.serviceAccount
    && Images(a.template.pod) == Images(b.template.pod)
  }

  predicate ClaimEqual(a: ClaimSpec, b: ClaimSpec)
  {
    a.storage == b.storage && a.accessMode == b.accessMode
  }

  predicate ServiceEqual(a: Obj, s: ServiceSpec, b: Obj, t: ServiceSpec)
  {
    s.selector == t.selector && a.labels == b.labels && a.annotations == b.annotations
    && s.serviceType == t.serviceType
  }

  predicate MonitorEqual(a: Obj, s: MonitorSpec, b: Obj, t: MonitorSpec)
  {
    s.selector == t.selector && a.labels == b.labels && a.annotations == b.annotations
  }

  predicate AccountEqual(a: Obj, b: Obj)
  {
    a.labels == b.labels && a.annotations == b.annotations
  }

  /** Go reads a missing map key as the empty string. */
  function Lookup(m: map<string, string>, k: string): string
  {
    if k in m then m[k] else ""
  }

  function HashOf(d: DeploymentSpec): string
  {
    Lookup(d.template.annotations, HashKey())
  }

  predicate IsUpf(who: Who, k: Key)
  {
    k.name == BaseName(who.name, UPF)
  }

  lemma BaseIsUpf(who: Who, c: Component)
    ensures IsUpf(who, BaseKey(Deployment, who, c)) <==> c == UPF
  {
    DecodeBaseName(who.name, c);
    DecodeBaseName(who.name, UPF);
  }

  /** The Deployment stored after a pass that found `found` and generated `want`. */
  function DeploymentAfter(upf: bool, wantLabels: Labels, want: DeploymentSpec, foundLabels: Labels, found: DeploymentSpec)
    : DeploymentSpec
  {
    if upf then
      found.(template := found.template.(annotations := want.template.annotations))
    else if !DeploymentEqual(wantLabels, want, foundLabels, found) || HashOf(found) != HashOf(want) then want
    else found
  }

  /** The object stored after a pass that found `found` under the key and generated `want`. */
  function Reconciled(who: Who, k: Key, want: Obj, found: Obj): Obj
  {
    if !HasOwner(found, who.uid) then found
    else
      match (want.body, found.body)
      case (ConfigBody(_), ConfigBody(_)) =>
        if ConfigMapEqual(want, found) then found else found.(body := want.body)
      case (DeploymentBody(d), DeploymentBody(e)) =>
        found.(body := DeploymentBody(DeploymentAfter(IsUpf(who, k), want.labels, d, found.labels, e)))
      case (ServiceBody(s), ServiceBody(t)) =>
        if ServiceEqual(want, s, found, t) then found else found.(body := want.body)
      case (MonitorBody(s), MonitorBody(t)) =>
        if MonitorEqual(want, s, found, t) then found else found.(body := want.body)
      case (ClaimBody(s), ClaimBody(t)) =>
        if ClaimEqual(s, t) then found else found.(body := want.body)
      case (AccountBody(_), AccountBody(_)) =>
        if AccountEqual(want, found) then found
        else found.(annotations := want.annotations, labels := want.labels)
      case _ => found
  }

  /** Get, then create, keep or update. */
  function EnsureSlot(who: Who, k: Key, want: Obj, slot: Slot): Slot
  {
    match slot
    case None => Some(want)
    case Some(found) => Some(Reconciled(who, k, want, found))
  }

  /** A second pass over an object changes nothing. */
  lemma EnsureIdempotent(who: Who, k: Key, want: Obj, slot: Slot)
    ensures EnsureSlot(who, k, want, EnsureSlot(who, k, want, slot)) == EnsureSlot(who, k, want, slot)
  {
    if slot.None? && want.body.DeploymentBody? {
      var d := want.body.deployment;
      assert d.(template := d.template.(annotations := d.template.annotations)) == d;
    }
  }

  /** Owners are never changed, and labels only on a ServiceAccount, where they become the wanted ones. */
  lemma ReconciledKeeps(who: Who, k: Key, want: Obj, found: Obj)
    ensures var after := Reconciled(who, k, want, found);
      && after.owners == found.owners
      && BodyKind(after.body) == BodyKind(found.body)
      && (after.labels == found.labels || (after.labels == want.labels && HasOwner(found, who.uid)))
      && (!HasOwner(found, who.uid) ==> after == found)
  {
  }
}
