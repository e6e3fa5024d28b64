/** Well-formed clusters, and why the actions of coherent plans commute on them. */
module Coherence {
  import opened Text
  import opened Model
  import opened Names
  import opened Compare
  import opened Plan

  /** Custom resources of one API server: UIDs are unique, and so are names within a namespace. */
  ghost predicate ValidCrs(crs: set<Who>)
  {
    forall v, w :: v in crs && w in crs && (v.uid == w.uid || (v.ns == w.ns && v.name == w.name)) ==> v == w
  }

  /** Kinds that the operator deletes by listing. */
  predicate Swept(kind: Kind)
  {
    kind in {Service, ServiceMonitor, ServiceAccount}
  }

  /** A swept object labelled for an instance and component is not named for another one. */
  predicate LabelsAgree(k: Key, o: Obj)
  {
    LabelOwner(k, o).Some? && NameOwner(k).Some? ==> LabelOwner(k, o) == NameOwner(k)
  }

  predicate SpeaksFor(who: Who, owner: Option<Owner>)
  {
    owner.Some? && owner.value.inst == who.name
  }

  /** A Service that one CR owns is not owned by, named for or labelled for another CR of its namespace. */
  ghost predicate OwnersAgree(crs: set<Who>, k: Key, o: Obj)
  {
    forall v, w :: v in crs && w in crs && v != w && v.ns == w.ns == k.ns && HasOwner(o, v.uid) ==>
      !HasOwner(o, w.uid) && !SpeaksFor(w, NameOwner(k)) && !SpeaksFor(w, LabelOwner(k, o))
  }

  ghost predicate WF(crs: set<Who>, k: Key, slot: Slot)
  {
    slot.Some? && Swept(k.kind) ==>
      LabelsAgree(k, slot.value) && (k.kind == Service ==> OwnersAgree(crs, k, slot.value))
  }

  ghost predicate WFStore(crs: set<Who>, s: Store)
  {
    forall k :: WF(crs, k, At(s, k))
  }

  /** What a single CR needs: labels agree with names. Owners matter only between CRs. */
  ghost predicate LabelledWell(s: Store)
  {
    forall k :: k in s && Swept(k.kind) ==> LabelsAgree(k, s[k])
  }

  lemma AloneWF(who: Who, s: Store)
    ensures LabelledWell(s) <==> WFStore({who}, s)
    ensures ValidCrs({who})
  {
    if WFStore({who}, s) {
      forall k | k in s && Swept(k.kind) ensures LabelsAgree(k, s[k]) { assert WF({who}, k, At(s, k)); }
    }
  }

  /** A name that belongs to one of the CRs. */
  ghost predicate Claimed(crs: set<Who>, k: Key)
  {
    NameOwner(k).Some? && exists w :: w in crs && w.ns == k.ns && w.name == NameOwner(k).value.inst
  }

  // ----- Actions of a plan -----

  function ActionOwner(a: Action): Owner
  {
    Owner(a.who.ns, a.who.name, a.comp)
  }

  /** An action writes only under its own names, with its own labels and owner. */
  predicate Disciplined(a: Action)
  {
    match a.op
    case Ensure(key, want) =>
      && NameOwner(key) == Some(ActionOwner(a))
      && LabelOwner(key, want) == Some(ActionOwner(a))
      && want.owners == [a.who.uid]
      && BodyKind(want.body) == key.kind
    case DropOwned(key) => NameOwner(key) == Some(ActionOwner(a))
    case Snap(kind, mode) => Swept(kind) && (mode.ByPrefix? ==> kind == Service)
    case Sweep(kind, mode) => Swept(kind) && (mode.ByPrefix? ==> kind == Service)
  }

  predicate SameOwner(a: Action, b: Action)
  {
    a.who == b.who && a.comp == b.comp
  }

  /** Two actions for one component: the same key gets the same object, and no sweep or drop takes
      what the other action keeps. */
  predicate Compatible(a: Action, b: Action)
  {
    match (a.op, b.op)
    case (Ensure(k, want), Ensure(k', want')) => k == k' ==> want == want'
    case (Ensure(k, _), DropOwned(k')) => k != k'
    case (Ensure(k, _), Snap(kind, mode)) => k.kind != kind || (mode.ByLabel? && k.name in mode.keep)
    case (Ensure(k, _), Sweep(kind, mode)) => k.kind != kind || (mode.ByLabel? && k.name in mode.keep)
    case _ => true
  }

  ghost predicate Coherent(crs: set<Who>, p: Actions)
  {
    && (forall a :: a in p ==> a.who in crs && Disciplined(a))
    && (forall a, b :: a in p && b in p && SameOwner(a, b) ==> Compatible(a, b))
  }

  lemma CreatedWF(crs: set<Who>, a: Action)
    requires ValidCrs(crs) && a.who in crs && Disciplined(a) && a.op.Ensure?
    ensures WF(crs, a.op.key, Some(a.op.want))
  {
  }

  /** An object that keeps its owners and takes the labels of one of them. */
  lemma OwnersStillAgree(crs: set<Who>, who: Who, k: Key, found: Obj, after: Obj)
    requires ValidCrs(crs) && who in crs && k.ns == who.ns && OwnersAgree(crs, k, found)
    requires after.owners == found.owners && HasOwner(found, who.uid) && SpeaksFor(who, LabelOwner(k, after))
    ensures OwnersAgree(crs, k, after)
  {
    assert forall w :: w in crs && w.ns == k.ns && SpeaksFor(w, LabelOwner(k, after)) ==> w == who;
  }

  /** An object keeps its owners and takes no labels but the wanted ones. */
  lemma RelabelledWF(crs: set<Who>, a: Action, found: Obj, after: Obj)
    requires ValidCrs(crs) && a.who in crs && Disciplined(a) && a.op.Ensure? && WF(crs, a.op.key, Some(found))
    requires after.owners == found.owners
    requires after.labels == found.labels || (after.labels == a.op.want.labels && HasOwner(found, a.who.uid))
    ensures WF(crs, a.op.key, Some(after))
  {
    assert LabelOwner(a.op.key, after) in {LabelOwner(a.op.key, found), LabelOwner(a.op.key, a.op.want)};
    if after.labels != found.labels && a.op.key.kind == Service { OwnersStillAgree(crs, a.who, a.op.key, found, after); }
  }

  lemma UpdatedWF(crs: set<Who>, a: Action, found: Obj)
    requires ValidCrs(crs) && a.who in crs && Disciplined(a) && a.op.Ensure? && WF(crs, a.op.key, Some(found))
    ensures WF(crs, a.op.key, Some(Reconciled(a.who, a.op.key, a.op.want, found)))
  {
    ReconciledKeeps(a.who, a.op.key, a.op.want, found);
    RelabelledWF(crs, a, found, Reconciled(a.who, a.op.key, a.op.want, found));
  }

  /** Well-formedness is preserved by every action. */
  lemma KeepsWF(crs: set<Who>, a: Action, k: Key, slot: Slot)
    requires ValidCrs(crs) && a.who in crs && Disciplined(a) && WF(crs, k, slot)
    ensures WF(crs, k, Effect(a, k, slot))
  {
    if a.op.Ensure? && k == a.op.key {
      if slot.Some? { UpdatedWF(crs, a, slot.value); } else { CreatedWF(crs, a); }
    }
  }

  /** An action does nothing to an object named for another component, or for another CR. */
  lemma Foreign(crs: set<Who>, a: Action, k: Key, slot: Slot)
    requires ValidCrs(crs) && a.who in crs && Disciplined(a) && WF(crs, k, slot)
    requires Claimed(crs, k) && NameOwner(k).value != ActionOwner(a)
    ensures Effect(a, k, slot) == slot
  {
    if a.op.Sweep? && Hits(a, k, slot) {
      if a.op.mode.ByLabel? {
        LabelledMeansOwner(k, slot.value, a.who.name, a.comp);
      } else {
        ForeignToPrefix(crs, a, k, slot);
      }
      assert false;
    }
  }

  lemma ForeignToPrefix(crs: set<Who>, a: Action, k: Key, slot: Slot)
    requires ValidCrs(crs) && a.who in crs && Disciplined(a) && WF(crs, k, slot)
    requires Claimed(crs, k) && NameOwner(k).value != ActionOwner(a) && a.op.Sweep? && a.op.mode.ByPrefix?
    ensures !Hits(a, k, slot)
  {
    var w :| w in crs && w.ns == k.ns && w.name == NameOwner(k).value.inst;
    if w == a.who {
      DecodeSound(k.kind, k.name);
      PrefixMeansComponent(a.who.name, a.comp, k.kind, Decode(k.kind, k.name).value);
    }
  }

  /** Under a name of none of the CRs, an action can only delete. */
  lemma Unnamed(crs: set<Who>, a: Action, k: Key, slot: Slot)
    requires a.who in crs && Disciplined(a) && !Claimed(crs, k)
    ensures Effect(a, k, slot) == slot || Effect(a, k, slot) == None
    ensures Effect(a, k, None) == None
  {
  }

  lemma EffectIdempotent(a: Action, k: Key, slot: Slot)
    ensures Effect(a, k, Effect(a, k, slot)) == Effect(a, k, slot)
  {
    if a.op.Ensure? { EnsureIdempotent(a.who, a.op.key, a.op.want, slot); }
  }

  lemma CommuteCompatible(a: Action, b: Action, k: Key, slot: Slot)
    requires Compatible(a, b) && Compatible(b, a) && SameOwner(a, b)
    ensures Effect(a, k, Effect(b, k, slot)) == Effect(b, k, Effect(a, k, slot))
  {
  }

  /** Any two actions of coherent plans commute at every key of a well-formed cluster. */
  lemma Commute(crs: set<Who>, p: Actions, a: Action, b: Action, k: Key, slot: Slot)
    requires ValidCrs(crs) && Coherent(crs, p) && a in p && b in p && WF(crs, k, slot)
    ensures Effect(a, k, Effect(b, k, slot)) == Effect(b, k, Effect(a, k, slot))
  {
    KeepsWF(crs, a, k, slot);
    KeepsWF(crs, b, k, slot);
    if !Claimed(crs, k) {
      Unnamed(crs, a, k, slot);
      Unnamed(crs, b, k, slot);
    } else if NameOwner(k).value != ActionOwner(a) {
      Foreign(crs, a, k, slot);
      Foreign(crs, a, k, Effect(b, k, slot));
    } else if NameOwner(k).value != ActionOwner(b) {
      Foreign(crs, b, k, slot);
      Foreign(crs, b, k, Effect(a, k, slot));
    } else {
      CommuteCompatible(a, b, k, slot);
    }
  }

  /** A full pass absorbs any one of its actions done beforehand. */
  lemma {:induction false} Absorb(crs: set<Who>, p: Actions, q: Actions, a: Action, k: Key, slot: Slot)
    requires ValidCrs(crs) && Coherent(crs, p) && a in q && (forall b :: b in q ==> b in p) && WF(crs, k, slot)
    ensures Effects(q, k, Effect(a, k, slot)) == Effects(q, k, slot)
  {
    var b := q[0];
    if a == b {
      EffectIdempotent(a, k, slot);
    } else {
      Commute(crs, p, a, b, k, slot);
      KeepsWF(crs, b, k, slot);
      Absorb(crs, p, q[1..], a, k, Effect(b, k, slot));
    }
  }

  lemma {:induction false} EffectsKeepWF(crs: set<Who>, p: Actions, k: Key, slot: Slot)
    requires ValidCrs(crs) && (forall a :: a in p ==> a.who in crs && Disciplined(a)) && WF(crs, k, slot)
    ensures WF(crs, k, Effects(p, k, slot))
  {
    if p != [] {
      KeepsWF(crs, p[0], k, slot);
      EffectsKeepWF(crs, p[1..], k, Effect(p[0], k, slot));
    }
  }

  /** A full pass absorbs any part of itself done beforehand: interrupted, with failed calls, or both. */
  lemma {:induction false} AbsorbReachable(crs: set<Who>, p: Actions, q: Actions, k: Key, before: Slot, after: Slot)
    requires ValidCrs(crs) && Coherent(crs, p) && (forall b :: b in q ==> b in p) && WF(crs, k, before)
    requires Reachable(q, k, before, after)
    ensures Effects(p, k, after) == Effects(p, k, before)
    ensures WF(crs, k, after)
  {
    if q != [] {
      var a := q[0];
      if Reachable(q[1..], k, before, after) {
        AbsorbReachable(crs, p, q[1..], k, before, after);
      } else {
        KeepsWF(crs, a, k, before);
        AbsorbReachable(crs, p, q[1..], k, Effect(a, k, before), after);
        Absorb(crs, p, p, a, k, before);
      }
    }
  }

  lemma {:induction false} Past(crs: set<Who>, p: Actions, q: Actions, a: Action, k: Key, slot: Slot)
    requires ValidCrs(crs) && Coherent(crs, p) && a in p && (forall b :: b in q ==> b in p) && WF(crs, k, slot)
    ensures Effects(q, k, Effect(a, k, slot)) == Effect(a, k, Effects(q, k, slot))
  {
    if q != [] {
      Commute(crs, p, a, q[0], k, slot);
      KeepsWF(crs, q[0], k, slot);
      Past(crs, p, q[1..], a, k, Effect(q[0], k, slot));
    }
  }

  /** Two plans that are coherent together can be carried out in either order. */
  lemma {:induction false} SwapPlans(crs: set<Who>, all: Actions, p: Actions, q: Actions, k: Key, slot: Slot)
    requires ValidCrs(crs) && Coherent(crs, all) && WF(crs, k, slot)
    requires (forall a :: a in p ==> a in all) && (forall a :: a in q ==> a in all)
    ensures Effects(q, k, Effects(p, k, slot)) == Effects(p, k, Effects(q, k, slot))
  {
    if p != [] {
      KeepsWF(crs, p[0], k, slot);
      SwapPlans(crs, all, p[1..], q, k, Effect(p[0], k, slot));
      Past(crs, all, q, p[0], k, slot);
    }
  }
}
