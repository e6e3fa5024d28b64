/** One pass of the reconciler as a list of actions on the cluster, and what each action does to the
    object stored under each key. */
module Plan {
  import opened Text
  import opened Model
  import opened Names
  import opened Resources
  import opened Compare

  /** Which listed objects a sweep deletes. */
  datatype Mode =
    | ByLabel(keep: set<string>)   // instance and component labels match, and the name is not kept
    | ByPrefix                     // the name starts with the component's base name, and the CR owns it

  datatype Op =
    | Ensure(key: Key, want: Obj)
    | DropOwned(key: Key)
    | Snap(kind: Kind, mode: Mode)    // list
    | Sweep(kind: Kind, mode: Mode)   // delete what the list found

  datatype Action = Action(who: Who, comp: Component, op: Op)

  type Actions = seq<Action>

  /** Whether a sweep deletes the object stored under a key. */
  predicate Hit(who: Who, c: Component, kind: Kind, mode: Mode, k: Key, slot: Slot)
  {
    && k.kind == kind && k.ns == who.ns && slot.Some?
    && match mode
       case ByLabel(keep) => Labelled(slot.value, who.name, c) && k.name !in keep
       case ByPrefix => TeardownPrefix(who.name, c, k.name) && HasOwner(slot.value, who.uid)
  }

  predicate Hits(a: Action, k: Key, slot: Slot)
    requires a.op.Snap? || a.op.Sweep?
  {
    Hit(a.who, a.comp, a.op.kind, a.op.mode, k, slot)
  }

  /** What an action makes of the object under `k`. */
  function Effect(a: Action, k: Key, slot: Slot): Slot
  {
    match a.op
    case Ensure(key, want) => if k == key then EnsureSlot(a.who, key, want, slot) else slot
    case DropOwned(key) =>
      if k == key && slot.Some? && HasOwner(slot.value, a.who.uid) then None else slot
    case Snap(_, _) => slot
    case Sweep(_, _) => if Hits(a, k, slot) then None else slot
  }

  function Effects(p: Actions, k: Key, slot: Slot): Slot
  {
    if p == [] then slot else Effects(p[1..], k, Effect(p[0], k, slot))
  }

  /** `after` can result from `before` when some of the actions take effect at `k` and others do not:
      calls that failed, or a pass that stopped. */
  ghost predicate Reachable(p: Actions, k: Key, before: Slot, after: Slot)
  {
    if p == [] then after == before
    else Reachable(p[1..], k, before, after) || Reachable(p[1..], k, Effect(p[0], k, before), after)
  }

  ghost predicate Completed(p: Actions, s: Store, t: Store)
  {
    forall k :: At(t, k) == Effects(p, k, At(s, k))
  }

  ghost predicate Partial(p: Actions, s: Store, t: Store)
  {
    forall k :: Reachable(p, k, At(s, k), At(t, k))
  }

  // ----- The plan of a component -----

  function EnsureItem(who: Who, c: Component, x: Item): Action
  {
    Action(who, c, Ensure(x.key, x.obj))
  }

  function EnsureAll(who: Who, c: Component, xs: seq<Item>): Actions
  {
    if xs == [] then [] else [EnsureItem(who, c, xs[0])] + EnsureAll(who, c, xs[1..])
  }

  function EnsureOpt(who: Who, c: Component, x: Option<Item>): Actions
  {
    if x.None? then [] else [EnsureItem(who, c, x.value)]
  }

  function NamesOf(xs: seq<Item>): set<string>
  {
    set x | x in xs :: x.key.name
  }

  function Purge(who: Who, c: Component, kind: Kind, mode: Mode): Actions
  {
    [Action(who, c, Snap(kind, mode)), Action(who, c, Sweep(kind, mode))]
  }

  /** An optional object: reconciled when wanted, otherwise every labelled one is deleted. */
  function EnsureOrPurge(who: Who, c: Component, kind: Kind, x: Option<Item>): Actions
  {
    if x.Some? then [EnsureItem(who, c, x.value)] else Purge(who, c, kind, ByLabel({}))
  }

  function ConfigPlan(who: Who, c: Component, b: Bundle): Actions
  {
    EnsureOpt(who, c, b.extra) + [EnsureItem(who, c, b.config), EnsureItem(who, c, b.deployment)]
  }

  function ServicePlan(who: Who, c: Component, xs: seq<Item>): Actions
  {
    var mode := ByLabel(NamesOf(xs));
    [Action(who, c, Snap(Service, mode))] + EnsureAll(who, c, xs) + [Action(who, c, Sweep(Service, mode))]
    + EnsureAll(who, c, xs)
  }

  function MonitorPlan(crd: bool, who: Who, c: Component, b: Bundle): Actions
  {
    if crd then EnsureOrPurge(who, c, ServiceMonitor, b.monitor) else []
  }

  function EnablePlanWith(who: Who, c: Component, b: Bundle, monitors: Actions): Actions
  {
    ConfigPlan(who, c, b) + ServicePlan(who, c, b.services) + monitors
    + EnsureOpt(who, c, b.claim) + EnsureOrPurge(who, c, ServiceAccount, b.account)
  }

  /** reconcileX followed by reconcileComponent. */
  function EnablePlan(crd: bool, who: Who, c: Component, b: Bundle): Actions
  {
    EnablePlanWith(who, c, b, MonitorPlan(crd, who, c, b))
  }

  function Drop(who: Who, c: Component, kind: Kind): Action
  {
    Action(who, c, DropOwned(BaseKey(kind, who, c)))
  }

  /** deleteComponentResources. */
  function DisablePlan(crd: bool, who: Who, c: Component): Actions
  {
    [Drop(who, c, ConfigMap), Drop(who, c, Deployment)] + Purge(who, c, Service, ByPrefix)
    + (if crd then [Drop(who, c, ServiceMonitor)] else [])
    + [Drop(who, c, Claim), Drop(who, c, ServiceAccount)]
  }

  function ComponentPlan(d: Desired, c: Component): Actions
  {
    if c in d.bundles then EnablePlan(c in d.monitored, d.who, c, d.bundles[c]) else DisablePlan(c in d.monitored, d.who, c)
  }

  function PlanOver(d: Desired, cs: seq<Component>): Actions
  {
    if cs == [] then [] else ComponentPlan(d, cs[0]) + PlanOver(d, cs[1..])
  }

  /** One pass of Reconcile. */
  function PassPlan(d: Desired): Actions
  {
    PlanOver(d, Order())
  }

  // ----- Algebra of effects -----

  lemma {:induction false} EffectsConcat(p: Actions, q: Actions, k: Key, slot: Slot)
    ensures Effects(p + q, k, slot) == Effects(q, k, Effects(p, k, slot))
  {
    if p == [] {
      assert p + q == q;
    } else {
      assert (p + q)[1..] == p[1..] + q;
      EffectsConcat(p[1..], q, k, Effect(p[0], k, slot));
    }
  }

  lemma {:induction false} ReachableConcat(p: Actions, q: Actions, k: Key, a: Slot, b: Slot, c: Slot)
    requires Reachable(p, k, a, b) && Reachable(q, k, b, c)
    ensures Reachable(p + q, k, a, c)
  {
    if p == [] {
      assert p + q == q;
    } else {
      assert (p + q)[1..] == p[1..] + q;
      if Reachable(p[1..], k, a, b) {
        ReachableConcat(p[1..], q, k, a, b, c);
      } else {
        ReachableConcat(p[1..], q, k, Effect(p[0], k, a), b, c);
      }
    }
  }

  lemma {:induction false} NothingReachable(p: Actions, k: Key, a: Slot)
    ensures Reachable(p, k, a, a)
  {
    if p != [] { NothingReachable(p[1..], k, a); }
  }

  lemma {:induction false} EffectsReachable(p: Actions, k: Key, a: Slot)
    ensures Reachable(p, k, a, Effects(p, k, a))
  {
    if p != [] { EffectsReachable(p[1..], k, Effect(p[0], k, a)); }
  }

  lemma CompletedConcat(p: Actions, q: Actions, s: Store, t: Store, u: Store)
    requires Completed(p, s, t) && Completed(q, t, u)
    ensures Completed(p + q, s, u)
  {
    forall k ensures At(u, k) == Effects(p + q, k, At(s, k)) {
      EffectsConcat(p, q, k, At(s, k));
      assert At(t, k) == Effects(p, k, At(s, k));
    }
  }

  lemma PartialConcat(p: Actions, q: Actions, s: Store, t: Store, u: Store)
    requires Partial(p, s, t) && Partial(q, t, u)
    ensures Partial(p + q, s, u)
  {
    forall k ensures Reachable(p + q, k, At(s, k), At(u, k)) {
      assert Reachable(p, k, At(s, k), At(t, k)) && Reachable(q, k, At(t, k), At(u, k));
      ReachableConcat(p, q, k, At(s, k), At(t, k), At(u, k));
    }
  }

  lemma PartialNothing(p: Actions, s: Store)
    ensures Partial(p, s, s)
  {
    forall k ensures Reachable(p, k, At(s, k), At(s, k)) { NothingReachable(p, k, At(s, k)); }
  }

  lemma CompletedIsPartial(p: Actions, s: Store, t: Store)
    requires Completed(p, s, t)
    ensures Partial(p, s, t)
  {
    forall k ensures Reachable(p, k, At(s, k), At(t, k)) { EffectsReachable(p, k, At(s, k)); }
  }

  /** A store that results from a complete pass is determined by the store it started from. */
  lemma CompletedUnique(p: Actions, s: Store, t: Store, u: Store)
    requires Completed(p, s, t) && Completed(p, s, u)
    ensures t == u
  {
    forall k ensures At(t, k) == At(u, k) {}
    StoresEqual(t, u);
  }
}
