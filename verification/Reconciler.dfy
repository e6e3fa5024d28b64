/** The Open5GS reconciler, call by call, proved against the plan of a pass. */
module Reconciler {
  import opened Text
  import opened Model
  import opened Names
  import opened Resources
  import opened Compare
  import opened Plan
  import opened Coherence
  import opened PlanFacts
  import opened Probes
  import opened Api

  /** A Go map on the heap: two holders of the reference see each other's writes. */
  class AnnotationMap {
    var entries: map<string, string>

    constructor ()
      ensures entries == map[]
    {
      entries := map[];
    }

    method Set(k: string, v: string)
      modifies this
      ensures entries == old(entries)[k := v]
    {
      entries := entries[k := v];
    }
  }

  function Entries(m: AnnotationMap?): map<string, string>
    reads m
  {
    if m == null then map[] else m.entries
  }

  /** The custom resource in the operator's memory. */
  class Open5GS {
    const who: Who
    var spec: Spec
    var annotations: AnnotationMap?

    constructor (who: Who, spec: Spec, annotations: AnnotationMap?)
      ensures this.who == who && this.spec == spec && this.annotations == annotations
    {
      this.who, this.spec, this.annotations := who, spec, annotations;
    }

    function Value(): Resource
      reads this, annotations
    {
      Resource(Core(who, spec), Entries(annotations))
    }

    /** setDefaultValues: component by component, then the top-level fields. */
    method SetDefaultValues()
      modifies `spec
      ensures spec == Defaulted(old(spec))
    {
      var given := spec;
      var cs := Order();
      var fns: map<Component, Function> := map[];
      for i := 0 to |cs|
        invariant fns == map c | c in cs[..i] :: DefaultFunction(c, Fn(given, c))
      {
        fns := fns[cs[i] := DefaultFunction(cs[i], Fn(given, cs[i]))];
        assert cs[..i + 1] == cs[..i] + [cs[i]];
      }
      assert cs[..|cs|] == cs;
      spec := Spec(fns, FillText(given.webuiImage, "docker.io/gradiant/open5gs-webui:2.7.5"),
                   FillText(given.open5gsImage, "docker.io/gradiant/open5gs:2.7.5"),
                   FillText(given.mongoVersion, "bitnami/mongodb:latest"),
                   DefaultConfiguration(given.configuration));
    }
  }

  // ----- Effects of single writes -----

  lemma PutCompletes(a: Action, k: Key, s: Store, o: Obj)
    requires a.op.Ensure? && a.op.key == k && Effect(a, k, At(s, k)) == Some(o)
    ensures Completed([a], s, s[k := o])
  {
    assert [a][1..] == [];
    forall j ensures At(s[k := o], j) == Effects([a], j, At(s, j)) {}
  }

  lemma KeepCompletes(a: Action, k: Key, s: Store)
    requires (a.op.Ensure? || a.op.DropOwned?) && a.op.key == k && Effect(a, k, At(s, k)) == At(s, k)
    ensures Completed([a], s, s)
  {
    assert [a][1..] == [];
    forall j ensures At(s, j) == Effects([a], j, At(s, j)) {}
  }

  lemma DropCompletes(a: Action, k: Key, s: Store)
    requires a.op.DropOwned? && a.op.key == k && Effect(a, k, At(s, k)) == None
    ensures Completed([a], s, s - {k})
  {
    assert [a][1..] == [];
    forall j ensures At(s - {k}, j) == Effects([a], j, At(s, j)) {}
  }

  // ----- One object of each kind -----

  method ReconcileConfigMap(api: ApiServer, who: Who, c: Component, x: Item) returns (ok: bool, hash: string)
    requires x.obj.body.ConfigBody?
    modifies api
    ensures api.tests == old(api.tests) && api.Calm(old(api.clock), old(api.failures))
    ensures !ok ==> api.objects == old(api.objects) && api.failures > old(api.failures)
    ensures ok ==> hash == api.world.digest(x.obj.body.data)
    ensures ok ==> Completed([EnsureItem(who, c, x)], old(api.objects), api.objects)
  {
    var a, k, want := EnsureItem(who, c, x), x.key, x.obj;
    hash := api.world.digest(want.body.data);
    var err, slot := api.Get(k);
    if err == NotFound {
      PutCompletes(a, k, api.objects, want);
      err := api.Create(k, want);
      return err == Ok, hash;
    }
    if err != Ok {
      return false, hash;
    }
    var found := slot.value;
    if HasOwner(found, who.uid) && found.body.ConfigBody? && !ConfigMapEqual(want, found) {
      var after := found.(body := want.body);
      PutCompletes(a, k, api.objects, after);
      err := api.Update(k, after);
      return err == Ok, hash;
    }
    KeepCompletes(a, k, api.objects);
    ok := true;
  }

  method ReconcileService(api: ApiServer, who: Who, c: Component, x: Item) returns (ok: bool)
    requires x.obj.body.ServiceBody?
    modifies api
    ensures api.tests == old(api.tests) && api.Calm(old(api.clock), old(api.failures))
    ensures !ok ==> api.objects == old(api.objects) && api.failures > old(api.failures)
    ensures ok ==> Completed([EnsureItem(who, c, x)], old(api.objects), api.objects)
  {
    var a, k, want := EnsureItem(who, c, x), x.key, x.obj;
    var err, slot := api.Get(k);
    if err == NotFound {
      PutCompletes(a, k, api.objects, want);
      err := api.Create(k, want);
      return err == Ok;
    }
    if err != Ok {
      return false;
    }
    var found := slot.value;
    if HasOwner(found, who.uid) && found.body.ServiceBody?
       && !ServiceEqual(want, want.body.service, found, found.body.service) {
      var after := found.(body := want.body);
      PutCompletes(a, k, api.objects, after);
      err := api.Update(k, after);
      return err == Ok;
    }
    KeepCompletes(a, k, api.objects);
    ok := true;
  }

  method ReconcileClaim(api: ApiServer, who: Who, c: Component, x: Item) returns (ok: bool)
    requires x.obj.body.ClaimBody?
    modifies api
    ensures api.tests == old(api.tests) && api.Calm(old(api.clock), old(api.failures))
    ensures !ok ==> api.objects == old(api.objects) && api.failures > old(api.failures)
    ensures ok ==> Completed([EnsureItem(who, c, x)], old(api.objects), api.objects)
  {
    var a, k, want := EnsureItem(who, c, x), x.key, x.obj;
    var err, slot := api.Get(k);
    if err == NotFound {
      PutCompletes(a, k, api.objects, want);
      err := api.Create(k, want);
      return err == Ok;
    }
    if err != Ok {
      return false;
    }
    var found := slot.value;
    if HasOwner(found, who.uid) && found.body.ClaimBody? && !ClaimEqual(want.body.claim, found.body.claim) {
      var after := found.(body := want.body);
      PutCompletes(a, k, api.objects, after);
      err := api.Update(k, after);
      return err == Ok;
    }
    KeepCompletes(a, k, api.objects);
    ok := true;
  }

  /** One more test was made, at the turn of `c`. */
  predicate TestedOnce(before: Tests, after: Tests, c: Component)
  {
    |after| == |before| + 1 && before <= after && after[|before|].comp == c
  }

  /** Whether the last test was answered. */
  predicate Answer(ts: Tests)
  {
    ts != [] && ts[|ts| - 1].answered
  }

  /** Tests for the CRD once more before it touches the monitor. */
  method ReconcileServiceMonitor(api: ApiServer, who: Who, c: Component, x: Item) returns (ok: bool)
    requires x.obj.body.MonitorBody?
    modifies api
    ensures TestedOnce(old(api.tests), api.tests, c) && api.Calm(old(api.clock), old(api.failures))
    ensures !ok ==> api.objects == old(api.objects) && (api.failures > old(api.failures) || !Answer(api.tests))
    ensures ok ==> Answer(api.tests)
    ensures !api.outage(old(api.clock)) ==> Answer(api.tests)
    ensures ok ==> Completed(if api.world.crd then [EnsureItem(who, c, x)] else [], old(api.objects), api.objects)
  {
    var a, k, want := EnsureItem(who, c, x), x.key, x.obj;
    var err, available := api.MonitorCrdAvailable(c);
    if err != Ok {
      return false;
    }
    if !available {
      return true;
    }
    var slot;
    err, slot := api.Get(k);
    if err == NotFound {
      PutCompletes(a, k, api.objects, want);
      err := api.Create(k, want);
      return err == Ok;
    }
    if err != Ok {
      return false;
    }
    var found := slot.value;
    if HasOwner(found, who.uid) && found.body.MonitorBody?
       && !MonitorEqual(want, want.body.monitor, found, found.body.monitor) {
      var after := found.(body := want.body);
      PutCompletes(a, k, api.objects, after);
      err := api.Update(k, after);
      return err == Ok;
    }
    KeepCompletes(a, k, api.objects);
    ok := true;
  }

  method ReconcileServiceAccount(api: ApiServer, who: Who, c: Component, x: Item) returns (ok: bool)
    requires x.obj.body.AccountBody?
    modifies api
    ensures api.tests == old(api.tests) && api.Calm(old(api.clock), old(api.failures))
    ensures !ok ==> api.objects == old(api.objects) && api.failures > old(api.failures)
    ensures ok ==> Completed([EnsureItem(who, c, x)], old(api.objects), api.objects)
  {
    var a, k, want := EnsureItem(who, c, x), x.key, x.obj;
    var err, slot := api.Get(k);
    if err == NotFound {
      PutCompletes(a, k, api.objects, want);
      err := api.Create(k, want);
      return err == Ok;
    }
    if err != Ok {
      return false;
    }
    var found := slot.value;
    if HasOwner(found, who.uid) && found.body.AccountBody? && !AccountEqual(want, found) {
      var after := found.(annotations := want.annotations, labels := want.labels);
      PutCompletes(a, k, api.objects, after);
      err := api.Update(k, after);
      return err == Ok;
    }
    KeepCompletes(a, k, api.objects);
    ok := true;
  }

  // ----- Deployments -----

  /** The test of the UPF branch: sizes, then every wanted entry, then every current key. A missing key
      reads as the empty string, and still the answer is exactly whether the maps differ. */
  method NeedUpdate(current: map<string, string>, wanted: map<string, string>) returns (need: bool)
    ensures need <==> current != wanted
  {
    need := false;
    if |current| != |wanted| {
      return true;
    }
    var left := wanted.Keys;
    while left != {}
      invariant left <= wanted.Keys
      invariant forall k :: k in wanted && k !in left ==> Lookup(current, k) == wanted[k]
      decreases |left|
    {
      var k :| k in left;
      left := left - {k};
      if Lookup(current, k) != wanted[k] {
        need := true;
        break;
      }
    }
    if need {
      return;
    }
    left := current.Keys;
    while left != {}
      invariant left <= current.Keys
      invariant forall k :: k in current && k !in left ==> k in wanted
      decreases |left|
    {
      var k :| k in left;
      left := left - {k};
      if k !in wanted {
        return true;
      }
    }
    SameSizeSubset(current.Keys, wanted.Keys);
  }

  lemma SameSizeSubset<T>(a: set<T>, b: set<T>)
    requires a <= b && |a| == |b|
    ensures a == b
  {
    if b - a != {} {
      var x :| x in b - a;
      SubsetSize(a, b - {x});
    } else {
      assert b <= a;
    }
  }

  lemma {:induction false} SubsetSize<T>(a: set<T>, b: set<T>)
    requires a <= b
    ensures |a| <= |b|
  {
    if a != {} {
      var x :| x in a;
      SubsetSize(a - {x}, b - {x});
    }
  }

  /** newAnnotations: the hash, overwritten and extended by what the CR's map now holds. */
  method WantedAnnotations(hash: string, user: AnnotationMap?) returns (wanted: map<string, string>)
    ensures wanted == map[HashKey() := hash] + Entries(user)
  {
    wanted := map[HashKey() := hash];
    if user != null {
      var left := user.entries.Keys;
      while left != {}
        invariant left <= user.entries.Keys
        invariant wanted == map[HashKey() := hash] + (map k | k in user.entries && k !in left :: user.entries[k])
        decreases |left|
      {
        var k :| k in left;
        left := left - {k};
        wanted := wanted[k := user.entries[k]];
      }
      assert (map k | k in user.entries && k !in left :: user.entries[k]) == user.entries;
    }
  }

  function WithAnnotations(o: Obj, annotations: map<string, string>): Obj
    requires o.body.DeploymentBody?
  {
    var d := o.body.deployment;
    o.(body := DeploymentBody(d.(template := d.template.(annotations := annotations))))
  }

  /** The branch for an owned Deployment: what to write back, and whether to write at all. */
  method CompareDeployment(cr: Open5GS, k: Key, want: Obj, found: Obj, hash: string) returns (need: bool, after: Obj)
    requires want.body.DeploymentBody? && found.body.DeploymentBody? && HasOwner(found, cr.who.uid)
    requires HashOf(want.body.deployment) == hash
    requires IsUpf(cr.who, k) ==>
      want.body.deployment.template.annotations == map[HashKey() := hash] + Entries(cr.annotations)
    ensures after == Reconciled(cr.who, k, want, found) && (!need ==> after == found)
  {
    var d, e := want.body.deployment, found.body.deployment;
    if IsUpf(cr.who, k) {
      var wanted := WantedAnnotations(hash, cr.annotations);
      need := NeedUpdate(e.template.annotations, wanted);
      after := if need then WithAnnotations(found, wanted) else found;
    } else {
      need := !DeploymentEqual(want.labels, d, found.labels, e) || HashOf(e) != hash;
      after := if need then found.(body := want.body) else found;
    }
  }

  /** `own` is the annotation map of the desired template. For UPF it is the very map of the CR, so the
      hash written to it shows in the CR as well, and a user's entry under that key is lost. */
  method ReconcileDeployment(api: ApiServer, cr: Open5GS, c: Component, x: Item, own: AnnotationMap?, hash: string)
    returns (ok: bool)
    requires x.obj.body.DeploymentBody?
    requires own == if IsUpf(cr.who, x.key) then cr.annotations else null
    modifies api, own
    ensures api.tests == old(api.tests) && api.Calm(old(api.clock), old(api.failures))
    ensures !ok ==> api.objects == old(api.objects) && api.failures > old(api.failures)
    ensures own != null ==> own.entries == old(own.entries)[HashKey() := hash]
    ensures ok ==>
      var want := WithAnnotations(x.obj, old(Entries(own))[HashKey() := hash]);
      Completed([EnsureItem(cr.who, c, x.(obj := want))], old(api.objects), api.objects)
  {
    var annotations := own;
    if annotations == null {
      annotations := new AnnotationMap();
    }
    annotations.Set(HashKey(), hash);
    var k, want := x.key, WithAnnotations(x.obj, annotations.entries);
    assert annotations.entries == map[HashKey() := hash] + annotations.entries;
    var a := EnsureItem(cr.who, c, x.(obj := want));
    var err, slot := api.Get(k);
    if err == NotFound {
      PutCompletes(a, k, api.objects, want);
      err := api.Create(k, want);
      return err == Ok;
    }
    if err != Ok {
      return false;
    }
    if !HasOwner(slot.value, cr.who.uid) || !slot.value.body.DeploymentBody? {
      KeepCompletes(a, k, api.objects);
      return true;
    }
    var need, after := CompareDeployment(cr, k, want, slot.value, hash);
    if !need {
      KeepCompletes(a, k, api.objects);
      return true;
    }
    PutCompletes(a, k, api.objects, after);
    err := api.Update(k, after);
    ok := err == Ok;
  }
}
