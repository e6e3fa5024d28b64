/** What a pass does to single objects, in terms of their fields and of the flags and names in the spec. */
module Repairs {
  import opened Text
  import opened Model
  import opened Names
  import opened Resources
  import opened Compare
  import opened Plan
  import opened Coherence
  import opened PlanFacts
  import opened Outcomes
  import opened Convergence
  import opened Probes
  import Runs

  // ----- One object -----

  /** The two pods run the same images. */
  predicate SameImages(p: PodSpec, q: PodSpec)
  {
    && |p.containers| == |q.containers|
    && forall i :: 0 <= i < |p.containers| ==> p.containers[i].image == q.containers[i].image
  }

  function HashIn(d: DeploymentSpec): string
  {
    if "open5gs/configmap-hash" in d.template.annotations then d.template.annotations["open5gs/configmap-hash"] else ""
  }

  /** The stored object agrees with the wanted one in the fields that the operator repairs. */
  predicate Agree(want: Obj, o: Obj)
  {
    match (want.body, o.body)
    case (ConfigBody(x), ConfigBody(y)) => y == x
    case (DeploymentBody(d), DeploymentBody(e)) =>
      && e.template.pod.serviceAccount == d.template.pod.serviceAccount && SameImages(e.template.pod, d.template.pod)
      && HashIn(e) == HashIn(d)
    case (ServiceBody(x), ServiceBody(y)) => y.selector == x.selector && y.serviceType == x.serviceType
    case (MonitorBody(x), MonitorBody(y)) => y.selector == x.selector
    case (ClaimBody(x), ClaimBody(y)) => y.storage == x.storage && y.accessMode == x.accessMode
    case (AccountBody(_), AccountBody(_)) => o.labels == want.labels && o.annotations == want.annotations
    case _ => false
  }

  lemma SameImagesIff(p: PodSpec, q: PodSpec)
    ensures SameImages(p, q) <==> Images(p) == Images(q)
  {
    var xs, ys := Images(p), Images(q);
    if SameImages(p, q) {
      assert xs == ys;
    } else if xs == ys {
      forall i | 0 <= i < |p.containers| ensures p.containers[i].image == q.containers[i].image { assert xs[i] == ys[i]; }
    }
  }

  predicate OfUpf(who: Who, k: Key, want: Obj)
  {
    want.body.DeploymentBody? && k.name == who.name + "-upf"
  }

  lemma OfUpfIs(who: Who, k: Key, want: Obj)
    ensures OfUpf(who, k, want) <==> want.body.DeploymentBody? && IsUpf(who, k)
  {
    assert who.name + "-upf" == who.name + "-" + "upf";
  }

  lemma DeploymentRepaired(who: Who, k: Key, want: Obj, found: Obj)
    requires who.uid in found.owners && want.body.DeploymentBody? && found.body.DeploymentBody? && !OfUpf(who, k, want)
    ensures Agree(want, Reconciled(who, k, want, found))
    ensures Agree(want, found) && found.labels == want.labels ==> Reconciled(who, k, want, found) == found
  {
    OfUpfIs(who, k, want);
    SameImagesIff(found.body.deployment.template.pod, want.body.deployment.template.pod);
    SameImagesIff(want.body.deployment.template.pod, want.body.deployment.template.pod);
  }

  /** An object with the owner reference of the CR, alone or among others: after one reconciliation it agrees
      with the wanted one, and nothing is written if it did before. The Deployment of UPF is the exception. */
  lemma OwnedIsRepaired(who: Who, k: Key, want: Obj, found: Obj)
    requires who.uid in found.owners && BodyKind(found.body) == BodyKind(want.body) && !OfUpf(who, k, want)
    ensures var after := EnsureSlot(who, k, want, Some(found));
      && after.Some? && Agree(want, after.value) && after.value.owners == found.owners
      && (!want.body.AccountBody? ==> after.value.labels == found.labels && after.value.annotations == found.annotations)
      && (Agree(want, found) && found.labels == want.labels && found.annotations == want.annotations ==> after.value == found)
  {
    if want.body.DeploymentBody? { DeploymentRepaired(who, k, want, found); }
  }

  lemma DeploymentReplaced(who: Who, k: Key, want: Obj, found: Obj)
    requires who.uid in found.owners && want.body.DeploymentBody? && found.body.DeploymentBody? && !OfUpf(who, k, want)
    ensures Reconciled(who, k, want, found).body == if Agree(want, found) && found.labels == want.labels then found.body else want.body
  {
    OfUpfIs(who, k, want);
    SameImagesIff(found.body.deployment.template.pod, want.body.deployment.template.pod);
  }

  /** A difference in a repaired field brings back the whole wanted body, and so does, but for claims and
      ServiceAccounts, a difference in the labels. Without one the stored body stays, with whatever else a user
      changed in it. */
  lemma RepairIsWhole(who: Who, k: Key, want: Obj, found: Obj)
    requires who.uid in found.owners && BodyKind(found.body) == BodyKind(want.body) && !OfUpf(who, k, want)
    requires !want.body.AccountBody?
    ensures EnsureSlot(who, k, want, Some(found)).value.body
         == if Agree(want, found)
               && (want.body.ClaimBody? || found.labels == want.labels)
               && (want.body.ClaimBody? || want.body.DeploymentBody? || found.annotations == want.annotations)
            then found.body else want.body
  {
    if want.body.DeploymentBody? { DeploymentReplaced(who, k, want, found); }
  }

  /** Of the Deployment of UPF the template annotations become the wanted ones, and nothing else changes. */
  lemma UpfIsAnnotated(who: Who, k: Key, want: Obj, found: Obj)
    requires who.uid in found.owners && found.body.DeploymentBody? && OfUpf(who, k, want)
    ensures var after := EnsureSlot(who, k, want, Some(found)).value;
      && after.body.DeploymentBody? && after.(body := found.body) == found
      && after.body.deployment.template.annotations == want.body.deployment.template.annotations
      && after.body.deployment.template.pod == found.body.deployment.template.pod
      && after.body.deployment.selector == found.body.deployment.selector
  {
    OfUpfIs(who, k, want);
  }

  /** An object without the owner reference of the CR is left alone, and one that is not there is created. */
  lemma UnownedIsLeft(who: Who, k: Key, want: Obj, slot: Slot)
    requires slot.Some? ==> who.uid !in slot.value.owners
    ensures EnsureSlot(who, k, want, slot) == if slot.Some? then slot else Some(want)
  {
  }

  // ----- After a pass -----

  lemma CreatedAgrees(want: Obj, kind: Kind)
    requires BodyKind(want.body) == kind
    ensures Agree(want, want)
  {
  }

  lemma SweptEnsured(crd: bool, who: Who, c: Component, b: Bundle, k: Key, x: Item, slot: Slot)
    requires Swept(k.kind) && Runs.ItemOf(crd, b, k) == Some(x)
    ensures EnableAt(crd, who, c, b, k, slot) == EnsureSlot(who, k, x.obj, slot)
  {
  }

  /** What a pass makes of a key that it wants. */
  lemma WantedEnsured(crd: bool, who: Who, c: Component, b: Bundle, k: Key, x: Item, slot: Slot)
    requires GoodBundle(who, c, b) && Runs.ItemOf(crd, b, k) == Some(x)
    ensures EnableAt(crd, who, c, b, k, slot) == EnsureSlot(who, k, x.obj, slot)
  {
    if Swept(k.kind) { SweptEnsured(crd, who, c, b, k, x, slot); } else { Runs.WantedAt(crd, who, c, b, k, x, slot); }
  }

  lemma SeenItem(d: Desired, ts: Tests, c: Component, k: Key)
    requires c in d.bundles && k.kind != ServiceMonitor
    ensures var e := Seen(d, ts);
      c in e.bundles && Runs.ItemOf(c in e.monitored, e.bundles[c], k) == Runs.ItemOf(c in d.monitored, d.bundles[c], k)
  {
  }

  lemma WantedAfterPass(d: Desired, c: Component, k: Key, x: Item, s: Store, t: Store)
    requires GoodDesired(d) && LabelledWell(s) && c in d.bundles && Runs.ItemOf(c in d.monitored, d.bundles[c], k) == Some(x)
    requires NameOwner(k) == Some(Owner(d.who.ns, d.who.name, c))
    requires if k.kind == ServiceMonitor then Completed(PassPlan(d), s, t) else Succeeded(d, s, t)
    ensures At(t, k) == EnsureSlot(d.who, k, x.obj, At(s, k))
  {
    AloneWF(d.who, s);
    assert WF({d.who}, k, At(s, k));
    var e := d;
    if k.kind != ServiceMonitor {
      var ts: Tests :| Completed(PassPlan(Seen(d, ts)), s, t);
      e := Seen(d, ts);
      SeenIsGood(d, ts);
      SeenItem(d, ts, c, k);
    }
    Runs.CompletePass(e, c, k, s, t);
    WantedEnsured(c in e.monitored, e.who, c, e.bundles[c], k, x, At(s, k));
  }

  /** Over any cluster whose labels agree with its names: after a pass that went through, whatever is wanted is
      there, and if it is the CR's it agrees with what is wanted. For monitors no test may have failed. */
  lemma PassRepairs(d: Desired, c: Component, k: Key, x: Item, s: Store, t: Store)
    requires GoodDesired(d) && LabelledWell(s) && c in d.bundles && Runs.ItemOf(c in d.monitored, d.bundles[c], k) == Some(x)
    requires if k.kind == ServiceMonitor then Completed(PassPlan(d), s, t) else Succeeded(d, s, t)
    requires NameOwner(k) == Some(Owner(d.who.ns, d.who.name, c)) && !OfUpf(d.who, k, x.obj)
    ensures k in t
    ensures d.who.uid in t[k].owners && BodyKind(t[k].body) == BodyKind(x.obj.body) ==> Agree(x.obj, t[k])
  {
    WantedAfterPass(d, c, k, x, s, t);
    assert At(t, k).Some? && t[k] == At(t, k).value;
    if k in s {
      ReconciledKeeps(d.who, k, x.obj, s[k]);
      if d.who.uid in t[k].owners && BodyKind(t[k].body) == BodyKind(x.obj.body) { OwnedIsRepaired(d.who, k, x.obj, s[k]); }
    } else {
      CreatedAgrees(x.obj, BodyKind(x.obj.body));
    }
  }

  // ----- In terms of the spec -----

  /** The component is switched on, or off, in the spec as the user wrote it. */
  predicate SwitchedTo(r: Core, c: Component, on: bool)
  {
    c in r.spec.functions && r.spec.functions[c].enabled == Some(on)
  }

  lemma SwitchDecides(r: Resource, c: Component, on: bool)
    requires SwitchedTo(r.core, c, on)
    ensures Enabled(WithDefaults(r).core, c) <==> on
  {
    DefaultsFillOnlyMissing(r.core.spec, c);
  }

  /** The objects that only some specs ask for. */
  lemma FlagsDecide(w: World, r: Resource, c: Component)
    requires c in r.core.spec.functions
    ensures var f, b := r.core.spec.functions[c], BundleOf(w, r, c);
      && (b.account.Some? <==> f.serviceAccount == Some(true))
      && (b.monitor.Some? <==> c in {AMF, SMF, PCF, UPF} && f.serviceMonitor == Some(true))
      && (b.claim.Some? <==> c == MongoDB) && (b.extra.Some? <==> c == UPF)
  {
    BundleParts(w, r, c);
  }

  lemma AccountWanted(w: World, r: Resource, c: Component, d: Desired)
    requires d == DesiredOf(w, r) && Enabled(r.core, c) && c in r.core.spec.functions
    requires r.core.spec.functions[c].serviceAccount == Some(true)
    ensures var who, x := r.core.who, CreateAccount(r.core.who, c);
      && d.who == who && GoodDesired(d) && c in d.bundles && x.key == Key(ServiceAccount, who.ns, who.name + "-" + Lower(c))
      && Runs.ItemOf(c in d.monitored, d.bundles[c], x.key) == Some(x) && NameOwner(x.key) == Some(Owner(who.ns, who.name, c))
  {
    DesiredIsGood(w, r);
    BundlesOfDesired(w, r, c);
    BundleParts(w, r, c);
    DecodeGenerated(ServiceAccount, Ident(r.core.who.name, c, ""));
  }

  lemma AccountRepaired(w: World, r: Resource, c: Component, d: Desired, s: Store, t: Store)
    requires d == DesiredOf(w, r) && Enabled(r.core, c) && c in r.core.spec.functions
    requires r.core.spec.functions[c].serviceAccount == Some(true) && LabelledWell(s) && Succeeded(d, s, t)
    ensures var x := CreateAccount(r.core.who, c);
      && x.key in t && (r.core.who.uid in t[x.key].owners && t[x.key].body.AccountBody? ==> Agree(x.obj, t[x.key]))
  {
    var x := CreateAccount(r.core.who, c);
    AccountWanted(w, r, c, d);
    PassRepairs(d, c, x.key, x, s, t);
  }

  /** A spec that asks for a ServiceAccount: after a pass that went through it is there, and if it is the CR's
      it carries exactly the labels of its instance and component and no annotations, whatever a user did. */
  lemma AccountRestored(w: World, r: Resource, c: Component, s: Store, t: Store)
    requires SwitchedTo(r.core, c, true) && r.core.spec.functions[c].serviceAccount == Some(true)
    requires LabelledWell(s) && Succeeded(DesiredOf(w, WithDefaults(r)), s, t)
    ensures var who, k := r.core.who, Key(ServiceAccount, r.core.who.ns, r.core.who.name + "-" + Lower(c));
      && k in t
      && (who.uid in t[k].owners && t[k].body.AccountBody? ==>
            t[k].labels == map[Instance := who.name, Name := Lower(c)] && t[k].annotations == map[])
  {
    SwitchDecides(r, c, true);
    DefaultsFillOnlyMissing(r.core.spec, c);
    OrderIsComplete(c);
    AccountRepaired(w, WithDefaults(r), c, DesiredOf(w, WithDefaults(r)), s, t);
  }

  lemma DeploymentWanted(w: World, r: Resource, c: Component, d: Desired)
    requires d == DesiredOf(w, r) && Enabled(r.core, c)
    ensures var who, x := r.core.who, MainDeployment(w, r, c);
      && d.who == who && GoodDesired(d) && c in d.bundles && x.key == Key(Deployment, who.ns, who.name + "-" + Lower(c))
      && d.bundles[c].deployment == x && NameOwner(x.key) == Some(Owner(who.ns, who.name, c))
  {
    DesiredIsGood(w, r);
    BundlesOfDesired(w, r, c);
    DecodeGenerated(Deployment, Ident(r.core.who.name, c, ""));
  }

  /** A component that the spec switches on has its Deployment after every pass that went through. */
  lemma SwitchedOnIsDeployed(w: World, r: Resource, c: Component, s: Store, t: Store)
    requires SwitchedTo(r.core, c, true) && LabelledWell(s) && Succeeded(DesiredOf(w, WithDefaults(r)), s, t)
    ensures Key(Deployment, r.core.who.ns, r.core.who.name + "-" + Lower(c)) in t
  {
    SwitchDecides(r, c, true);
    EnabledIsDeployed(w, WithDefaults(r), c, DesiredOf(w, WithDefaults(r)), s, t);
  }

  lemma EnabledIsDeployed(w: World, r: Resource, c: Component, d: Desired, s: Store, t: Store)
    requires d == DesiredOf(w, r) && Enabled(r.core, c) && LabelledWell(s) && Succeeded(d, s, t)
    ensures Key(Deployment, r.core.who.ns, r.core.who.name + "-" + Lower(c)) in t
  {
    DeploymentWanted(w, r, c, d);
    var x := d.bundles[c].deployment;
    WantedAfterPass(d, c, x.key, x, s, t);
    assert At(t, x.key).Some?;
  }

  /** The two ConfigMaps that teardown forgets. */
  predicate Forgettable(who: Who, c: Component, k: Key)
  {
    k.kind == ConfigMap
    && ((c == UPF && k.name == who.name + "-upf-entrypoint") || (c == MongoDB && k.name == who.name + "-mongodb-common-scripts"))
  }

  lemma PartNames(inst: string)
    ensures ServiceName(inst, UPF, "entrypoint") == inst + "-upf-entrypoint"
    ensures ServiceName(inst, MongoDB, "common-scripts") == inst + "-mongodb-common-scripts"
  {
    assert "-" + "upf" + "-" + "entrypoint" == "-upf-entrypoint";
    assert "-" + "mongodb" + "-" + "common-scripts" == "-mongodb-common-scripts";
    assert ServiceName(inst, UPF, "entrypoint") == inst + ("-" + "upf" + "-" + "entrypoint");
    assert ServiceName(inst, MongoDB, "common-scripts") == inst + ("-" + "mongodb" + "-" + "common-scripts");
  }

  lemma IdentNamed(who: Who, c: Component, k: Key, i: Ident)
    requires k.kind != Service && ValidIdent(k.kind, i) && k.ns == who.ns && i.inst == who.name && i.comp == c
    requires k.name == GeneratedName(i)
    ensures k == BaseKey(k.kind, who, c) || Forgettable(who, c, k)
  {
    if i.part != "" { PartNames(who.name); }
  }

  lemma BaseNamedOrPart(who: Who, c: Component, k: Key)
    requires k.kind != Service && NameOwner(k) == Some(Owner(who.ns, who.name, c))
    ensures k == BaseKey(k.kind, who, c) || Forgettable(who, c, k)
  {
    DecodeSound(k.kind, k.name);
    IdentNamed(who, c, k, Decode(k.kind, k.name).value);
  }

  lemma TornDown(crd: bool, who: Who, c: Component, k: Key, slot: Slot)
    requires NameOwner(k) == Some(Owner(who.ns, who.name, c)) && slot.Some? && who.uid in slot.value.owners
    requires k.kind == ServiceMonitor ==> crd
    ensures DisableAt(crd, who, c, k, slot).None? || Forgettable(who, c, k)
  {
    if k.kind == Service {
      DecodeSound(Service, k.name);
      PrefixMeansComponent(who.name, c, Service, Decode(Service, k.name).value);
    } else {
      BaseNamedOrPart(who, c, k);
    }
  }

  lemma DisabledIsGone(d: Desired, c: Component, s: Store, t: Store, k: Key)
    requires GoodDesired(d) && c !in d.bundles && LabelledWell(s) && Completed(PassPlan(d), s, t)
    requires NameOwner(k) == Some(Owner(d.who.ns, d.who.name, c)) && (k.kind == ServiceMonitor ==> c in d.monitored)
    ensures k in t && d.who.uid in t[k].owners ==> Forgettable(d.who, c, k)
  {
    AloneWF(d.who, s);
    assert WF({d.who}, k, At(s, k));
    Runs.CompletePass(d, c, k, s, t);
    if k in t && d.who.uid in t[k].owners {
      assert At(t, k) == Some(t[k]) && At(s, k) == At(t, k);
      TornDown(c in d.monitored, d.who, c, k, At(s, k));
    }
  }

  /** A component that the spec switches off has nothing left of the CR's after a complete pass, but for the
      two forgotten ConfigMaps. Monitors exist only where their CRD does. */
  lemma SwitchedOffIsGone(w: World, r: Resource, c: Component, s: Store, t: Store, k: Key)
    requires SwitchedTo(r.core, c, false) && LabelledWell(s) && Completed(PassPlan(DesiredOf(w, WithDefaults(r))), s, t)
    requires NameOwner(k) == Some(Owner(r.core.who.ns, r.core.who.name, c)) && (k.kind == ServiceMonitor ==> w.crd)
    ensures k in t && r.core.who.uid in t[k].owners ==> Forgettable(r.core.who, c, k)
  {
    SwitchDecides(r, c, false);
    DesiredIsGood(w, WithDefaults(r));
    BundlesOfDesired(w, WithDefaults(r), c);
    DisabledIsGone(DesiredOf(w, WithDefaults(r)), c, s, t, k);
  }

  /** An object without the owner reference of the CR, whoever else owns it, of a kind that is not deleted by
      listing: no pass of the CR changes it, whatever fails. */
  lemma OthersObjectsSurvive(d: Desired, s: Store, t: Store, k: Key, o: Obj)
    requires GoodDesired(d) && Runs.Attempt(d, s, t) && At(s, k) == Some(o)
    requires d.who.uid !in o.owners && k.kind in {ConfigMap, Deployment, Claim}
    ensures At(t, k) == Some(o)
  {
    Runs.ProtectedForever([d], [s, t], k, o);
  }
}
