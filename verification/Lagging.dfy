/** Stored objects that lag behind the spec: the Deployments of UPF and WebUI, and the ConfigMaps that
    teardown forgets. Their exact contents after any history of passes. */
module Lagging {
  import opened Text
  import opened Model
  import opened Names
  import opened Resources
  import opened Compare
  import opened Plan
  import opened PlanFacts
  import opened Outcomes
  import opened Drift
  import opened Runs
  import opened History

  // ----- What passes make of one Deployment, in terms of what they want there -----

  /** What each spec wants under one key. */
  type Wants = Resource -> Slot

  function WantStep(who: Who, k: Key, want: Slot, slot: Slot): Slot
  {
    if want.Some? then EnsureSlot(who, k, want.value, slot)
    else if slot.Some? && HasOwner(slot.value, who.uid) then None else slot
  }

  function WantSteps(want: Wants, who: Who, k: Key, es: Specs): Slot
  {
    match es case Nothing => None case Later(b, r) => WantStep(who, k, want(r), WantSteps(want, who, k, b))
  }

  ghost predicate StepsLike(f: Planner, want: Wants, who: Who, c: Component, k: Key)
  {
    forall r: Resource, slot :: r.core.who == who ==> PassStep(f(r), c, k, slot) == WantStep(who, k, want(r), slot)
  }

  lemma {:induction false} StepsAreWanted(f: Planner, want: Wants, who: Who, c: Component, k: Key, es: Specs)
    requires StepsLike(f, want, who, c, k) && OfCr(who, es)
    ensures Steps(f, c, k, es, None) == WantSteps(want, who, k, es)
  {
    if es.Later? {
      StepsAreWanted(f, want, who, c, k, es.before);
      assert PassStep(f(es.last), c, k, Steps(f, c, k, es.before, None))
          == WantStep(who, k, want(es.last), Steps(f, c, k, es.before, None));
    }
  }

  lemma DeploymentPass(d: Desired, c: Component, k: Key, slot: Slot)
    requires GoodDesired(d) && k == BaseKey(Deployment, d.who, c)
    requires c in d.bundles ==> BaseNamed(d.who, c, d.bundles[c])
    ensures PassStep(d, c, k, slot) == WantStep(d.who, k, WantsAt(d, c, k), slot)
  {
  }

  lemma DeploymentKey(who: Who, c: Component)
    ensures OwnKey(who, c, BaseKey(Deployment, who, c))
  {
    DecodeGenerated(Deployment, Ident(who.name, c, ""));
  }

  /** What the specs want under a key of component `c`. */
  function Targets(w: World, c: Component, k: Key): Wants
  {
    (r: Resource) => Target(w, r, c, k)
  }

  lemma BuildersStepLike(w: World, who: Who, c: Component)
    ensures var k := BaseKey(Deployment, who, c); StepsLike(Builders(w), Targets(w, c, k), who, c, k)
  {
    var k := BaseKey(Deployment, who, c);
    forall r: Resource, slot | r.core.who == who
      ensures PassStep(Builders(w)(r), c, k, slot) == WantStep(who, k, Targets(w, c, k)(r), slot)
    {
      BuilderStep(w, r, Builders(w)(r), c, slot);
    }
  }

  lemma BuilderStep(w: World, r: Resource, d: Desired, c: Component, slot: Slot)
    requires d == DesiredOf(w, r)
    ensures var k := BaseKey(Deployment, r.core.who, c);
      PassStep(d, c, k, slot) == WantStep(r.core.who, k, Target(w, r, c, k), slot)
  {
    var k := BaseKey(Deployment, r.core.who, c);
    DesiredIsGood(w, r);
    BundlesOfDesired(w, r, c);
    DesiredIsBaseNamed(w, r, c);
    WantsTarget(w, r, c, k);
    DeploymentPass(d, c, k, slot);
  }

  lemma DeploymentTarget(w: World, r: Resource, c: Component)
    ensures Target(w, r, c, BaseKey(Deployment, r.core.who, c))
         == if Enabled(r.core, c) then Some(MainDeployment(w, r, c).obj) else None
  {
    MadeDeployment(w, r, c);
  }

  /** After any history of passes that found no Deployment of `c` at first, complete or not, and one complete
      pass: what is there is what the passes that got to it make of nothing. */
  lemma DeploymentAfterLog(w: World, who: Who, h: Log, r: Resource, t: Store, c: Component) returns (es: Specs)
    requires Attempts(Builders(w), who, h) && At(First(h), BaseKey(Deployment, who, c)) == None
    requires r.core.who == who && Done(Builders(w), r, Last(h), t)
    ensures PickedFrom(es, h) && OfCr(who, Later(es, r)) && (AllDone(Builders(w), h) ==> es == SpecsOf(h))
    ensures var k := BaseKey(Deployment, who, c); At(t, k) == WantSteps(Targets(w, c, k), who, k, Later(es, r))
  {
    var k := BaseKey(Deployment, who, c);
    BuildersAreProper(w);
    DeploymentKey(who, c);
    es := FinalPass(Builders(w), who, h, r, t, c, k);
    BuildersStepLike(w, who, c);
    StepsAreWanted(Builders(w), Targets(w, c, k), who, c, k, Later(es, r));
  }

  // ----- UPF -----

  /** The spec of the pass that created what is there after passes with these specs, if anything is. */
  function Creator(es: Specs, c: Component): (a: Option<Resource>)
    ensures a.Some? <==> es.Later? && Enabled(es.last.core, c)
  {
    match es
    case Nothing => None
    case Later(b, r) => if !Enabled(r.core, c) then None else if Creator(b, c).Some? then Creator(b, c) else Some(r)
  }

  lemma {:induction false} CreatorOfCr(who: Who, es: Specs, c: Component)
    requires OfCr(who, es)
    ensures Creator(es, c).Some? ==> Creator(es, c).value.core.who == who && Enabled(Creator(es, c).value.core, c)
  {
    if es.Later? { CreatorOfCr(who, es.before, c); }
  }

  /** The Deployment `x` with the template annotations of `y`. */
  function Annotated(x: Obj, y: Obj): Obj
  {
    if x.body.DeploymentBody? && y.body.DeploymentBody? then
      var d := x.body.deployment;
      x.(body := DeploymentBody(d.(template := d.template.(annotations := y.body.deployment.template.annotations))))
    else x
  }

  function AnnotatedSlot(x: Slot, y: Slot): Slot
  {
    if x.Some? && y.Some? then Some(Annotated(x.value, y.value)) else None
  }

  predicate Alike(who: Who, labels: Labels, x: Obj)
  {
    x.body.DeploymentBody? && x == Generated(who, labels, x.body)
  }

  ghost predicate WantsAlike(want: Wants, who: Who, labels: Labels, c: Component)
  {
    forall r: Resource :: r.core.who == who ==>
      (want(r).Some? <==> Enabled(r.core, c)) && (want(r).Some? ==> Alike(who, labels, want(r).value))
  }

  lemma Reannotated(who: Who, k: Key, labels: Labels, x: Obj, y: Obj, z: Obj)
    requires IsUpf(who, k) && Alike(who, labels, x) && Alike(who, labels, y) && Alike(who, labels, z)
    ensures Reconciled(who, k, z, Annotated(x, y)) == Annotated(x, z)
  {
    var d := x.body.deployment;
    var e := d.(template := d.template.(annotations := y.body.deployment.template.annotations));
    assert e.(template := e.template.(annotations := z.body.deployment.template.annotations))
        == d.(template := d.template.(annotations := z.body.deployment.template.annotations));
  }

  lemma OwnAnnotations(x: Obj)
    ensures Annotated(x, x) == x
  {
  }

  /** The stored UPF Deployment: the one of the spec at its creation, with the latest annotations. */
  lemma {:induction false} UpfStored(want: Wants, who: Who, k: Key, labels: Labels, es: Specs)
    requires IsUpf(who, k) && WantsAlike(want, who, labels, UPF) && OfCr(who, es)
    ensures WantSteps(want, who, k, es)
         == match Creator(es, UPF) case None => None case Some(a) => AnnotatedSlot(want(a), want(es.last))
  {
    if es.Later? {
      var b, r := es.before, es.last;
      UpfStored(want, who, k, labels, b);
      CreatorOfCr(who, b, UPF);
      CreatorOfCr(who, es, UPF);
      if Enabled(r.core, UPF) {
        if Creator(b, UPF).Some? {
          Reannotated(who, k, labels, want(Creator(b, UPF).value).value, want(b.last).value, want(r).value);
        } else {
          OwnAnnotations(want(r).value);
        }
      }
    }
  }

  lemma DeploymentsAlike(w: World, who: Who, c: Component)
    ensures WantsAlike(Targets(w, c, BaseKey(Deployment, who, c)), who, OwnLabels(who.name, c), c)
  {
    var want := Targets(w, c, BaseKey(Deployment, who, c));
    forall r: Resource | r.core.who == who
      ensures (want(r).Some? <==> Enabled(r.core, c)) && (want(r).Some? ==> Alike(who, OwnLabels(who.name, c), want(r).value))
    {
      DeploymentTarget(w, r, c);
      MainIsAlike(w, r, c);
    }
  }

  lemma MainIsAlike(w: World, r: Resource, c: Component)
    ensures Alike(r.core.who, OwnLabels(r.core.who.name, c), MainDeployment(w, r, c).obj)
  {
  }

  lemma UpfFollows(w: World, a: Resource, b: Resource)
    requires a.core.who == b.core.who
    ensures var x, y := MainDeployment(w, a, UPF).obj, MainDeployment(w, b, UPF).obj;
      Annotated(x, y) == y <==> SameUpfPod(a.core, b.core)
  {
    UpfPodShows(a.core, b.core);
  }

  /** After any history of passes that found no UPF Deployment at first, complete or not, and one complete
      pass with the spec `r`: the stored Deployment is the one of the spec under which it was created, with
      the annotations of `r`, and it is the one generated from `r` exactly if nothing else of the pod
      changed since. `es` are the specs of the passes that got to the Deployment. */
  lemma UpfFollowsIff(w: World, who: Who, h: Log, r: Resource, t: Store) returns (es: Specs)
    requires Attempts(Builders(w), who, h) && At(First(h), BaseKey(Deployment, who, UPF)) == None
    requires r.core.who == who && Enabled(r.core, UPF) && Done(Builders(w), r, Last(h), t)
    ensures PickedFrom(es, h) && (AllDone(Builders(w), h) ==> es == SpecsOf(h))
    ensures var a, y := Creator(Later(es, r), UPF).value, MainDeployment(w, r, UPF).obj;
      var stored := Annotated(MainDeployment(w, a, UPF).obj, y);
      At(t, BaseKey(Deployment, who, UPF)) == Some(stored) && (stored == y <==> SameUpfPod(a.core, r.core))
  {
    var k := BaseKey(Deployment, who, UPF);
    es := DeploymentAfterLog(w, who, h, r, t, UPF);
    DeploymentsAlike(w, who, UPF);
    UpfStored(Targets(w, UPF, k), who, k, OwnLabels(who.name, UPF), Later(es, r));
    CreatorOfCr(who, Later(es, r), UPF);
    var a := Creator(Later(es, r), UPF).value;
    DeploymentTarget(w, a, UPF);
    DeploymentTarget(w, r, UPF);
    UpfFollows(w, a, r);
  }

  // ----- WebUI -----

  /** The spec of the last pass that wrote the Deployment of WebUI, if there is one: a pass writes it when it
      is not there, or when the drift check sees a difference. */
  function Writer(es: Specs): (a: Option<Resource>)
    ensures a.Some? <==> es.Later? && Enabled(es.last.core, WebUI)
    ensures a.Some? ==> SameSeen(a.value.core, es.last.core)
  {
    match es
    case Nothing => None
    case Later(b, r) =>
      if !Enabled(r.core, WebUI) then None
      else if Writer(b).Some? && SameSeen(Writer(b).value.core, r.core) then Writer(b) else Some(r)
  }

  lemma {:induction false} WriterOfCr(who: Who, es: Specs)
    requires OfCr(who, es)
    ensures Writer(es).Some? ==> Writer(es).value.core.who == who && Enabled(Writer(es).value.core, WebUI)
  {
    if es.Later? { WriterOfCr(who, es.before); }
  }

  /** A pass replaces what an earlier spec wanted, unless the drift check sees no difference. */
  ghost predicate ReplacesUnseen(want: Wants, who: Who, k: Key)
  {
    forall a: Resource, b: Resource :: a.core.who == b.core.who == who && want(a).Some? && want(b).Some? ==>
      Reconciled(who, k, want(b).value, want(a).value) == if SameSeen(a.core, b.core) then want(a).value else want(b).value
  }

  lemma {:induction false} WebuiStored(want: Wants, who: Who, k: Key, labels: Labels, es: Specs)
    requires WantsAlike(want, who, labels, WebUI) && ReplacesUnseen(want, who, k) && OfCr(who, es)
    ensures WantSteps(want, who, k, es) == match Writer(es) case None => None case Some(a) => want(a)
  {
    if es.Later? {
      WebuiStored(want, who, k, labels, es.before);
      WriterOfCr(who, es.before);
      WriterOfCr(who, es);
    }
  }

  lemma WebuiReplaces(w: World, who: Who)
    requires Renders(w)
    ensures var k := BaseKey(Deployment, who, WebUI); ReplacesUnseen(Targets(w, WebUI, k), who, k)
  {
    var k := BaseKey(Deployment, who, WebUI);
    var want := Targets(w, WebUI, k);
    forall a: Resource, b: Resource | a.core.who == b.core.who == who && want(a).Some? && want(b).Some?
      ensures Reconciled(who, k, want(b).value, want(a).value) == if SameSeen(a.core, b.core) then want(a).value else want(b).value
    {
      DeploymentTarget(w, a, WebUI);
      DeploymentTarget(w, b, WebUI);
      WebuiReplacesOrLeaves(w, a, b, k);
    }
  }

  /** After any history of passes that found no WebUI Deployment at first, complete or not, and one complete
      pass with the spec `r`: the stored Deployment is the one generated at the last pass that wrote it,
      and it is the one generated from `r` exactly if the MongoDB image is still the one of that pass. `es`
      are the specs of the passes that got to the Deployment. */
  lemma WebuiFollowsIff(w: World, who: Who, h: Log, r: Resource, t: Store) returns (es: Specs)
    requires Renders(w) && Attempts(Builders(w), who, h) && At(First(h), BaseKey(Deployment, who, WebUI)) == None
    requires r.core.who == who && Enabled(r.core, WebUI) && Done(Builders(w), r, Last(h), t)
    ensures PickedFrom(es, h) && (AllDone(Builders(w), h) ==> es == SpecsOf(h))
    ensures var a := Writer(Later(es, r)).value;
      && At(t, BaseKey(Deployment, who, WebUI)) == Some(MainDeployment(w, a, WebUI).obj)
      && (DeploymentOf(w, a, WebUI) == DeploymentOf(w, r, WebUI) <==> a.core.spec.mongoVersion == r.core.spec.mongoVersion)
  {
    var k := BaseKey(Deployment, who, WebUI);
    es := DeploymentAfterLog(w, who, h, r, t, WebUI);
    DeploymentsAlike(w, who, WebUI);
    WebuiReplaces(w, who);
    WebuiStored(Targets(w, WebUI, k), who, k, OwnLabels(who.name, WebUI), Later(es, r));
    WriterOfCr(who, Later(es, r));
    var a := Writer(Later(es, r)).value;
    DeploymentTarget(w, a, WebUI);
    WebuiPodShows(w, a, r);
  }

  // ----- The ConfigMaps that teardown forgets -----

  /** The key of the UPF entrypoint, or of MongoDB's scripts. */
  predicate Forgotten(who: Who, c: Component, k: Key)
  {
    (c == UPF && k == EntrypointKey(who)) || (c == MongoDB && k == MainConfigKey(who, MongoDB))
  }

  function ForgottenItem(w: World, r: Core, c: Component): Item
  {
    if c == UPF then EntrypointConfig(r) else MainConfig(w, r, MongoDB)
  }

  /** The last spec that enabled the component, if any. */
  function LastEnabled(es: Specs, c: Component): Option<Resource>
  {
    match es case Nothing => None case Later(b, r) => if Enabled(r.core, c) then Some(r) else LastEnabled(b, c)
  }

  lemma ForgottenKey(who: Who, c: Component, k: Key)
    requires Forgotten(who, c, k)
    ensures OwnKey(who, c, k) && k != BaseKey(ConfigMap, who, c)
  {
    ExtraNamesDiffer(who, c);
    DecodeGenerated(ConfigMap, Ident(who.name, c, if c == UPF then "entrypoint" else "common-scripts"));
  }

  lemma EntrypointMade(w: World, r: Resource)
    requires EntrypointKey(r.core.who) != BaseKey(ConfigMap, r.core.who, UPF)
    ensures Made(w, r, UPF, EntrypointKey(r.core.who)) == Some(EntrypointConfig(r.core).obj)
  {
  }

  lemma ScriptsMade(w: World, r: Resource)
    ensures Made(w, r, MongoDB, MainConfigKey(r.core.who, MongoDB)) == Some(MainConfig(w, r.core, MongoDB).obj)
  {
  }

  lemma ForgottenMade(w: World, r: Resource, c: Component, k: Key)
    requires Forgotten(r.core.who, c, k)
    ensures Made(w, r, c, k) == Some(ForgottenItem(w, r.core, c).obj)
  {
    ForgottenKey(r.core.who, c, k);
    if c == UPF { EntrypointMade(w, r); } else { ScriptsMade(w, r); }
  }

  lemma ForgottenPass(d: Desired, c: Component, k: Key, slot: Slot)
    requires GoodDesired(d) && k.kind == ConfigMap && k != BaseKey(ConfigMap, d.who, c)
    requires c in d.bundles ==> WantsAt(d, c, k).Some?
    ensures PassStep(d, c, k, slot) == if c in d.bundles then EnsureSlot(d.who, k, WantsAt(d, c, k).value, slot) else slot
  {
    if c in d.bundles {
      WantedAt(c in d.monitored, d.who, c, d.bundles[c], k, ItemOf(c in d.monitored, d.bundles[c], k).value, slot);
    }
  }

  lemma ForgottenStep(w: World, r: Resource, d: Desired, c: Component, k: Key, slot: Slot)
    requires d == DesiredOf(w, r) && Forgotten(r.core.who, c, k)
    ensures PassStep(d, c, k, slot)
         == if Enabled(r.core, c) then EnsureSlot(r.core.who, k, ForgottenItem(w, r.core, c).obj, slot) else slot
  {
    DesiredIsGood(w, r);
    BundlesOfDesired(w, r, c);
    ForgottenKey(r.core.who, c, k);
    WantsTarget(w, r, c, k);
    ForgottenMade(w, r, c, k);
    ForgottenPass(d, c, k, slot);
  }

  lemma ForgottenReplaces(w: World, a: Core, b: Core, c: Component, k: Key)
    requires a.who == b.who && Forgotten(a.who, c, k)
    ensures Reconciled(b.who, k, ForgottenItem(w, b, c).obj, ForgottenItem(w, a, c).obj) == ForgottenItem(w, b, c).obj
  {
    if c == UPF {
      ReconciledIsWant(b.who, k, EntrypointConfig(b).obj, EntrypointConfig(a).obj);
    } else {
      ConfigReplaces(w, a, b, MongoDB);
    }
  }

  /** Such a ConfigMap is the one of the last spec that enabled its component, for ever after. */
  lemma {:induction false} ForgottenStays(w: World, who: Who, es: Specs, c: Component, k: Key)
    requires Forgotten(who, c, k) && OfCr(who, es)
    ensures LastEnabled(es, c).Some? ==> LastEnabled(es, c).value.core.who == who
    ensures Steps(Builders(w), c, k, es, None)
         == match LastEnabled(es, c) case None => None case Some(a) => Some(ForgottenItem(w, a.core, c).obj)
  {
    if es.Later? {
      ForgottenStays(w, who, es.before, c, k);
      ForgottenStep(w, es.last, Builders(w)(es.last), c, k, Steps(Builders(w), c, k, es.before, None));
      if LastEnabled(es.before, c).Some? { ForgottenReplaces(w, LastEnabled(es.before, c).value.core, es.last.core, c, k); }
    }
  }

  /** After any history of passes that found no such ConfigMap at first: it is the one of the last spec that
      enabled the component, among the passes that got to it, and there is none if no spec did. */
  lemma ForgottenAfter(w: World, who: Who, h: Log, c: Component, k: Key) returns (es: Specs)
    requires Forgotten(who, c, k) && Attempts(Builders(w), who, h) && At(First(h), k) == None
    ensures PickedFrom(es, h) && (AllDone(Builders(w), h) ==> es == SpecsOf(h))
    ensures At(Last(h), k) == match LastEnabled(es, c) case None => None case Some(a) => Some(ForgottenItem(w, a.core, c).obj)
  {
    ForgottenKey(who, c, k);
    BuildersAreProper(w);
    es := EffectivePasses(Builders(w), who, h, c, k);
    ForgottenStays(w, who, es, c, k);
  }
}
