/** Any number of reconcilers sharing one cluster, one API call at a time.

    A process is one CR's worker. It reads, then writes; it lists, then deletes one object at a time;
    between any two of its calls the other workers may act. A call may fail, which ends the pass, and a
    pass may be cut off anywhere and started again. */
module Interleave {
  import opened Text
  import opened Model
  import opened Names
  import opened Compare
  import opened Plan
  import opened Coherence

  /** What the worker remembers between calls: the object it read, the keys it listed. */
  datatype Phase = Idle | Read(slot: Slot)
  datatype Listed = Listed(snap: Action, keys: set<Key>)

  /** `clean` is lost when a failed call is ignored. */
  datatype Proc = Proc(pos: nat, phase: Phase, listed: Option<Listed>, clean: bool)

  datatype Event =
    | Advance(i: nat)    // the next API call of worker i succeeds
    | Ignored(i: nat)    // it, or the test for the CRD before it, fails, and the code goes on regardless
    | Requeue(i: nat)    // it fails, or the operator stops: the worker starts its pass again

  datatype System = System(store: Store, procs: seq<Proc>)

  function FreshProc(): Proc {
    Proc(0, Idle, None, true)
  }

  function Put(s: Store, k: Key, slot: Slot): Store
  {
    if slot.Some? then s[k := slot.value] else s - {k}
  }

  function Listing(a: Action, s: Store): set<Key>
    requires a.op.Snap?
  {
    set k | k in s.Keys && Hits(a, k, At(s, k))
  }

  function Next(p: Proc): Proc
  {
    p.(pos := p.pos + 1, phase := Idle)
  }

  ghost function AnyOf(ks: set<Key>): (k: Key)
    requires ks != {}
    ensures k in ks
  {
    var k :| k in ks; k
  }

  /** One successful API call of a worker (or the local step when no call is due). */
  ghost function Call(plan: Actions, p: Proc, s: Store): (Proc, Store)
  {
    if p.pos >= |plan| then (p, s)
    else
      var a := plan[p.pos];
      match a.op
      case Snap(_, _) => (Next(p).(listed := Some(Listed(a, Listing(a, s)))), s)
      case Sweep(_, _) =>
        if p.listed.None? || p.listed.value.keys == {} then (Next(p).(listed := None), s)
        else
          var k := AnyOf(p.listed.value.keys);
          (p.(listed := Some(Listed(p.listed.value.snap, p.listed.value.keys - {k}))), s - {k})
      case _ =>
        var key := a.op.key;
        if p.phase.Idle? then (p.(phase := Read(At(s, key))), s)
        else
          var after := Effect(a, key, p.phase.slot);
          (Next(p), if after == p.phase.slot then s else Put(s, key, after))
  }

  /** How many actions the code passes over when the call that is due, or the test for the ServiceMonitor CRD
      before it, fails and the error is ignored: an action on one object (the UPF entrypoint ConfigMap, a
      monitor), or listing and deleting monitors. */
  function Skips(plan: Actions, pos: nat): nat
  {
    if pos >= |plan| then 0
    else if plan[pos].op.Ensure? || (plan[pos].op.DropOwned? && plan[pos].op.key.kind == ServiceMonitor) then 1
    else if plan[pos].op.Snap? && plan[pos].op.kind == ServiceMonitor && pos + 1 < |plan| && plan[pos + 1].op.Sweep? then 2
    else 0
  }

  function Skip(p: Proc, n: nat): Proc
  {
    p.(pos := p.pos + n, phase := Idle, clean := false)
  }

  ghost function Happen(plans: seq<Actions>, y: System, e: Event): System
  {
    if e.i >= |y.procs| || e.i >= |plans| then y
    else
      var p := y.procs[e.i];
      match e
      case Advance(i) =>
        var (q, t) := Call(plans[i], p, y.store);
        System(t, y.procs[i := q])
      case Ignored(i) =>
        if Skips(plans[i], p.pos) > 0 then System(y.store, y.procs[i := Skip(p, Skips(plans[i], p.pos))])
        else System(y.store, y.procs[i := FreshProc()])
      case Requeue(i) => System(y.store, y.procs[i := FreshProc()])
  }

  ghost function Run(plans: seq<Actions>, y: System, es: seq<Event>): System
    decreases |es|
  {
    if es == [] then y else Run(plans, Happen(plans, y, es[0]), es[1..])
  }

  /** The last pass of every worker went through without a failed call. */
  ghost predicate Finished(plans: seq<Actions>, y: System)
  {
    |y.procs| == |plans| && forall i :: 0 <= i < |plans| ==> y.procs[i].pos == |plans[i]| && y.procs[i].clean
  }

  function Start(s: Store, n: nat): System
  {
    System(s, seq(n, _ => FreshProc()))
  }

  // ----- The shape of a plan -----

  /** Every sweep uses the list of the snap before it, with only Ensure actions in between. */
  predicate Balanced(p: Actions, open: Option<Action>)
  {
    if p == [] then open.None?
    else
      var a := p[0];
      match a.op
      case Snap(_, _) => open.None? && Balanced(p[1..], Some(a))
      case Sweep(kind, mode) => open == Some(a.(op := Snap(kind, mode))) && Balanced(p[1..], None)
      case Ensure(_, _) => Balanced(p[1..], open)
      case DropOwned(_) => open.None? && Balanced(p[1..], None)
  }

  lemma {:induction false} BalancedConcat(p: Actions, q: Actions, open: Option<Action>)
    requires Balanced(p, open) && Balanced(q, None)
    ensures Balanced(p + q, open)
  {
    if p == [] {
      assert p + q == q;
    } else {
      var a := p[0];
      assert (p + q)[1..] == p[1..] + q;
      BalancedConcat(p[1..], q, if a.op.Snap? then Some(a) else if a.op.Ensure? then open else None);
    }
  }

  // ----- Invariant -----

  ghost predicate Fixed(a: Action, s: Store)
  {
    forall k :: Effect(a, k, At(s, k)) == At(s, k)
  }

  ghost predicate ListFresh(l: Listed, s: Store)
  {
    l.snap.op.Snap? && forall k :: k in l.keys <==> Hits(l.snap, k, At(s, k))
  }

  /** What a worker remembers is still true, and what it has done is still in place. */
  ghost predicate ProcOk(who: Who, plan: Actions, p: Proc, s: Store)
  {
    && p.pos <= |plan|
    && (forall a :: a in plan ==> a.who == who)
    && Balanced(plan[p.pos..], if p.listed.Some? then Some(p.listed.value.snap) else None)
    && (p.clean ==> forall j :: 0 <= j < p.pos ==> Fixed(plan[j], s))
    && (p.phase.Read? ==>
          && p.pos < |plan| && (plan[p.pos].op.Ensure? || plan[p.pos].op.DropOwned?)
          && p.phase.slot == At(s, plan[p.pos].op.key))
    && (p.listed.Some? ==> ListFresh(p.listed.value, s) && p.listed.value.snap in plan)
  }

  /** The setting: coherent plans of different CRs, and the union of their actions. */
  ghost predicate Setting(crs: set<Who>, whos: seq<Who>, plans: seq<Actions>, all: Actions)
  {
    && ValidCrs(crs) && Coherent(crs, all)
    && |whos| == |plans|
    && (forall i, j :: 0 <= i < |whos| && 0 <= j < |whos| && whos[i] == whos[j] ==> i == j)
    && (forall i, a :: 0 <= i < |plans| && a in plans[i] ==> a in all && a.who == whos[i])
    && (forall i :: 0 <= i < |plans| ==> Balanced(plans[i], None))
    && (forall a :: a in all ==> exists i :: 0 <= i < |plans| && a in plans[i])
  }

  ghost predicate SameGoal(all: Actions, s0: Store, s: Store)
  {
    forall k :: Effects(all, k, At(s, k)) == Effects(all, k, At(s0, k))
  }

  ghost predicate Inv(crs: set<Who>, whos: seq<Who>, plans: seq<Actions>, all: Actions, s0: Store, y: System)
  {
    && |y.procs| == |plans| == |whos| && WFStore(crs, y.store) && SameGoal(all, s0, y.store)
    && forall i :: 0 <= i < |plans| ==> ProcOk(whos[i], plans[i], y.procs[i], y.store)
  }

  // ----- A list stays accurate -----

  function AsSweep(a: Action): Action
    requires a.op.Snap?
  {
    a.(op := Sweep(a.op.kind, a.op.mode))
  }

  /** No listing of a plan hits what the plans keep under their own names. */
  lemma NeverHitsWanted(crs: set<Who>, all: Actions, a: Action, b: Action, slot: Slot)
    requires ValidCrs(crs) && Coherent(crs, all) && a in all && b in all && a.op.Ensure? && b.op.Snap?
    requires WF(crs, a.op.key, slot)
    ensures !Hits(b, a.op.key, slot)
  {
    assert Disciplined(a) && Disciplined(b);
    if ActionOwner(a) == ActionOwner(b) {
      assert SameOwner(a, b);
    } else {
      ActionClaims(crs, a, a.op.key);
      Foreign(crs, AsSweep(b), a.op.key, slot);
    }
  }

  lemma ActionClaims(crs: set<Who>, a: Action, k: Key)
    requires a.who in crs && k.ns == a.who.ns && NameOwner(k).Some? && NameOwner(k).value.inst == a.who.name
    ensures Claimed(crs, k)
  {
  }

  /** A listed object is not touched by another CR's action. */
  lemma ListedIsPrivate(crs: set<Who>, all: Actions, a: Action, b: Action, k: Key, slot: Slot)
    requires ValidCrs(crs) && Coherent(crs, all) && a in all && b in all && b.op.Snap?
    requires a.who != b.who && WF(crs, k, slot) && Hits(b, k, slot)
    ensures Effect(a, k, slot) == slot
  {
    assert Disciplined(a) && Disciplined(b);
    if Claimed(crs, k) {
      if NameOwner(k).value != ActionOwner(b) { Foreign(crs, AsSweep(b), k, slot); }
      Foreign(crs, a, k, slot);
    } else if a.op.Sweep? {
      LabelledMeansOwner(k, slot.value, a.who.name, a.comp);
      LabelledMeansOwner(k, slot.value, b.who.name, b.comp);
    }
  }

  lemma HitsStable(crs: set<Who>, all: Actions, a: Action, b: Action, k: Key, slot: Slot)
    requires ValidCrs(crs) && Coherent(crs, all) && a in all && b in all && b.op.Snap?
    requires a.who != b.who || a.op.Ensure?
    requires WF(crs, k, slot)
    ensures Hits(b, k, Effect(a, k, slot)) == Hits(b, k, slot)
  {
    if a.op.Ensure? {
      if k == a.op.key {
        KeepsWF(crs, a, k, slot);
        NeverHitsWanted(crs, all, a, b, slot);
        NeverHitsWanted(crs, all, a, b, Effect(a, k, slot));
      }
    } else if Hits(b, k, slot) {
      ListedIsPrivate(crs, all, a, b, k, slot);
    }
  }

  // ----- One write -----

  /** `t` is `s` after action `a` took effect under key `k`. */
  ghost predicate Wrote(a: Action, k: Key, s: Store, t: Store)
  {
    At(t, k) == Effect(a, k, At(s, k)) && forall j :: j != k ==> At(t, j) == At(s, j)
  }

  lemma WriteKeepsGoal(crs: set<Who>, all: Actions, s0: Store, a: Action, k: Key, s: Store, t: Store)
    requires ValidCrs(crs) && Coherent(crs, all) && a in all && WFStore(crs, s) && SameGoal(all, s0, s)
    requires Wrote(a, k, s, t)
    ensures WFStore(crs, t) && SameGoal(all, s0, t)
  {
    assert WF(crs, k, At(s, k));
    KeepsWF(crs, a, k, At(s, k));
    Absorb(crs, all, all, a, k, At(s, k));
    forall j ensures WF(crs, j, At(t, j)) && Effects(all, j, At(t, j)) == Effects(all, j, At(s0, j)) {
      assert WF(crs, j, At(s, j));
      assert Effects(all, j, At(s, j)) == Effects(all, j, At(s0, j));
    }
  }

  lemma WriteKeepsFixed(crs: set<Who>, all: Actions, a: Action, b: Action, k: Key, s: Store, t: Store)
    requires ValidCrs(crs) && Coherent(crs, all) && a in all && b in all && WFStore(crs, s)
    requires Wrote(a, k, s, t) && Fixed(b, s)
    ensures Fixed(b, t)
  {
    assert WF(crs, k, At(s, k));
    Commute(crs, all, a, b, k, At(s, k));
    forall j ensures Effect(b, j, At(t, j)) == At(t, j) {
      assert Effect(b, j, At(s, j)) == At(s, j);
    }
  }

  lemma WriteKeepsList(crs: set<Who>, all: Actions, a: Action, l: Listed, k: Key, s: Store, t: Store)
    requires ValidCrs(crs) && Coherent(crs, all) && a in all && l.snap in all && WFStore(crs, s)
    requires Wrote(a, k, s, t) && ListFresh(l, s) && (a.who != l.snap.who || a.op.Ensure?)
    ensures ListFresh(l, t)
  {
    assert WF(crs, k, At(s, k));
    HitsStable(crs, all, a, l.snap, k, At(s, k));
    forall j ensures j in l.keys <==> Hits(l.snap, j, At(t, j)) {
      assert j in l.keys <==> Hits(l.snap, j, At(s, j));
    }
  }

  /** A write of one worker leaves the others' memories true. */
  lemma WriteKeepsOther(crs: set<Who>, all: Actions, a: Action, k: Key, s: Store, t: Store,
                        who: Who, plan: Actions, p: Proc)
    requires ValidCrs(crs) && Coherent(crs, all) && a in all && WFStore(crs, s)
    requires Wrote(a, k, s, t) && a.who != who
    requires (forall b :: b in plan ==> b in all) && ProcOk(who, plan, p, s)
    ensures ProcOk(who, plan, p, t)
  {
    forall j | 0 <= j < p.pos && p.clean ensures Fixed(plan[j], t) {
      WriteKeepsFixed(crs, all, a, plan[j], k, s, t);
    }
    if p.phase.Read? && plan[p.pos].op.key == k {
      var b := plan[p.pos];
      assert Disciplined(b) && b in plan;
      assert WF(crs, k, At(s, k));
      ActionClaims(crs, b, k);
      Foreign(crs, a, k, At(s, k));
    }
    if p.listed.Some? { WriteKeepsList(crs, all, a, p.listed.value, k, s, t); }
  }

  // ----- One event -----

  /** The worker's own obligations after its call; `wrote` tells whether the call changed the store. */
  lemma CallKeepsOwn(crs: set<Who>, all: Actions, who: Who, plan: Actions, p: Proc, s: Store)
    returns (k: Key, wrote: bool)
    requires ValidCrs(crs) && Coherent(crs, all) && WFStore(crs, s)
    requires (forall b :: b in plan ==> b in all) && ProcOk(who, plan, p, s) && p.pos < |plan|
    ensures ProcOk(who, plan, Call(plan, p, s).0, Call(plan, p, s).1)
    ensures if wrote then Wrote(plan[p.pos], k, s, Call(plan, p, s).1) else Call(plan, p, s).1 == s
  {
    var a := plan[p.pos];
    assert a in plan;
    assert plan[p.pos..][0] == a && plan[p.pos..][1..] == plan[p.pos + 1..];
    var (q, t) := Call(plan, p, s);
    match a.op {
      case Snap(_, _) =>
        wrote := false;
        k := Key(Service, "", "");
        SnapKeepsOwn(who, plan, p, s);
      case Sweep(_, _) =>
        if p.listed.value.keys == {} {
          wrote := false;
          k := Key(Service, "", "");
          SweepDoneKeepsOwn(who, plan, p, s);
        } else {
          wrote := true;
          k := AnyOf(p.listed.value.keys);
          SweepStepKeepsOwn(crs, all, who, plan, p, s, k);
        }
      case _ =>
        k := a.op.key;
        if p.phase.Idle? {
          wrote := false;
        } else {
          wrote := true;
          assert Wrote(a, k, s, t);
          WriteCallKeepsOwn(crs, all, who, plan, p, s, t);
        }
    }
  }

  lemma SnapKeepsOwn(who: Who, plan: Actions, p: Proc, s: Store)
    requires ProcOk(who, plan, p, s) && p.pos < |plan| && plan[p.pos].op.Snap?
    requires plan[p.pos..][0] == plan[p.pos] && plan[p.pos..][1..] == plan[p.pos + 1..]
    ensures ProcOk(who, plan, Call(plan, p, s).0, s)
  {
    var a := plan[p.pos];
    assert Fixed(a, s);
    forall k ensures k in Listing(a, s) <==> Hits(a, k, At(s, k)) {}
  }

  lemma SweepDoneKeepsOwn(who: Who, plan: Actions, p: Proc, s: Store)
    requires ProcOk(who, plan, p, s) && p.pos < |plan| && plan[p.pos].op.Sweep?
    requires plan[p.pos..][0] == plan[p.pos] && plan[p.pos..][1..] == plan[p.pos + 1..]
    requires p.listed.Some? && p.listed.value.keys == {}
    ensures ProcOk(who, plan, Call(plan, p, s).0, s)
  {
    var a, l := plan[p.pos], p.listed.value;
    assert l.snap == a.(op := Snap(a.op.kind, a.op.mode));
    forall k ensures Effect(a, k, At(s, k)) == At(s, k) {
      assert k !in l.keys;
    }
    assert Fixed(a, s);
  }

  lemma SweepStepKeepsOwn(crs: set<Who>, all: Actions, who: Who, plan: Actions, p: Proc, s: Store, k: Key)
    requires ValidCrs(crs) && Coherent(crs, all) && WFStore(crs, s)
    requires (forall b :: b in plan ==> b in all)
    requires ProcOk(who, plan, p, s) && p.pos < |plan| && plan[p.pos].op.Sweep? && plan[p.pos] in all
    requires plan[p.pos..][0] == plan[p.pos]
    requires p.listed.Some? && k in p.listed.value.keys
    ensures Wrote(plan[p.pos], k, s, s - {k})
    ensures ProcOk(who, plan, p.(listed := Some(Listed(p.listed.value.snap, p.listed.value.keys - {k}))), s - {k})
  {
    var a, l, t := plan[p.pos], p.listed.value, s - {k};
    assert l.snap == a.(op := Snap(a.op.kind, a.op.mode));
    assert Hits(l.snap, k, At(s, k));
    assert Wrote(a, k, s, t);
    forall j | 0 <= j < p.pos && p.clean ensures Fixed(plan[j], t) {
      WriteKeepsFixed(crs, all, a, plan[j], k, s, t);
    }
    forall j ensures j in l.keys - {k} <==> Hits(l.snap, j, At(t, j)) {
      assert j in l.keys <==> Hits(l.snap, j, At(s, j));
    }
  }

  lemma WriteCallKeepsOwn(crs: set<Who>, all: Actions, who: Who, plan: Actions, p: Proc, s: Store, t: Store)
    requires ValidCrs(crs) && Coherent(crs, all) && WFStore(crs, s)
    requires (forall b :: b in plan ==> b in all)
    requires ProcOk(who, plan, p, s) && p.phase.Read?
    requires plan[p.pos..][0] == plan[p.pos] && plan[p.pos..][1..] == plan[p.pos + 1..]
    requires Wrote(plan[p.pos], plan[p.pos].op.key, s, t)
    ensures ProcOk(who, plan, Next(p), t)
  {
    var a, k := plan[p.pos], plan[p.pos].op.key;
    assert a in plan;
    forall j | 0 <= j < p.pos && p.clean ensures Fixed(plan[j], t) {
      WriteKeepsFixed(crs, all, a, plan[j], k, s, t);
    }
    EffectIdempotent(a, k, At(s, k));
    assert Fixed(a, t);
    if p.listed.Some? { WriteKeepsList(crs, all, a, p.listed.value, k, s, t); }
  }

  lemma AdvanceKeepsInv(crs: set<Who>, whos: seq<Who>, plans: seq<Actions>, all: Actions, s0: Store, y: System, i: nat)
    requires Setting(crs, whos, plans, all) && Inv(crs, whos, plans, all, s0, y)
    requires i < |plans| && y.procs[i].pos < |plans[i]|
    ensures Inv(crs, whos, plans, all, s0, Happen(plans, y, Advance(i)))
  {
    var p, plan := y.procs[i], plans[i];
    assert ProcOk(whos[i], plan, p, y.store);
    var k, wrote := CallKeepsOwn(crs, all, whos[i], plan, p, y.store);
    var a, t := plan[p.pos], Call(plan, p, y.store).1;
    assert a in plan;
    if wrote {
      WriteKeepsGoal(crs, all, s0, a, k, y.store, t);
    }
    forall j | 0 <= j < |plans| && j != i ensures ProcOk(whos[j], plans[j], y.procs[j], t) {
      assert ProcOk(whos[j], plans[j], y.procs[j], y.store);
      if wrote {
        WriteKeepsOther(crs, all, a, k, y.store, t, whos[j], plans[j], y.procs[j]);
      }
    }
  }

  lemma FreshProcOk(who: Who, plan: Actions, s: Store)
    requires (forall a :: a in plan ==> a.who == who) && Balanced(plan, None)
    ensures ProcOk(who, plan, FreshProc(), s)
  {
    assert plan[0..] == plan;
  }

  lemma IgnoredProcOk(who: Who, plan: Actions, p: Proc, s: Store)
    requires ProcOk(who, plan, p, s) && Skips(plan, p.pos) > 0
    ensures ProcOk(who, plan, Skip(p, Skips(plan, p.pos)), s)
  {
    var rest := plan[p.pos..];
    assert rest[0] == plan[p.pos] && rest[1..] == plan[p.pos + 1..];
    if Skips(plan, p.pos) == 2 {
      assert Balanced(rest[1..], Some(rest[0]));
      assert rest[1..][0] == plan[p.pos + 1] && rest[1..][1..] == plan[p.pos + 2..];
      assert Balanced(plan[p.pos + 2..], None);
    }
  }

  lemma HappenKeepsInv(crs: set<Who>, whos: seq<Who>, plans: seq<Actions>, all: Actions, s0: Store, y: System, e: Event)
    requires Setting(crs, whos, plans, all) && Inv(crs, whos, plans, all, s0, y)
    ensures Inv(crs, whos, plans, all, s0, Happen(plans, y, e))
  {
    if e.i < |plans| {
      var i := e.i;
      assert ProcOk(whos[i], plans[i], y.procs[i], y.store);
      if e.Advance? && y.procs[i].pos < |plans[i]| {
        AdvanceKeepsInv(crs, whos, plans, all, s0, y, i);
      } else if e.Advance? {
        assert Happen(plans, y, e).procs == y.procs;
      } else {
        FreshProcOk(whos[i], plans[i], y.store);
        if Skips(plans[i], y.procs[i].pos) > 0 {
          IgnoredProcOk(whos[i], plans[i], y.procs[i], y.store);
        }
      }
    }
  }

  lemma {:induction false} RunKeepsInv(crs: set<Who>, whos: seq<Who>, plans: seq<Actions>, all: Actions, s0: Store,
                                       y: System, es: seq<Event>)
    requires Setting(crs, whos, plans, all) && Inv(crs, whos, plans, all, s0, y)
    ensures Inv(crs, whos, plans, all, s0, Run(plans, y, es))
    decreases |es|
  {
    if es != [] {
      HappenKeepsInv(crs, whos, plans, all, s0, y, es[0]);
      RunKeepsInv(crs, whos, plans, all, s0, Happen(plans, y, es[0]), es[1..]);
    }
  }

  lemma {:induction false} FixedEffects(p: Actions, k: Key, slot: Slot)
    requires forall a :: a in p ==> Effect(a, k, slot) == slot
    ensures Effects(p, k, slot) == slot
  {
    if p != [] { FixedEffects(p[1..], k, slot); }
  }

  /** Whatever the interleaving of API calls, whatever calls failed and wherever passes were cut off:
      once every worker has completed a pass, the cluster is the one that uninterrupted passes, one
      after the other, make of the initial cluster. */
  lemma Converges(crs: set<Who>, whos: seq<Who>, plans: seq<Actions>, all: Actions, s0: Store, es: seq<Event>)
    requires Setting(crs, whos, plans, all) && WFStore(crs, s0)
    requires Finished(plans, Run(plans, Start(s0, |plans|), es))
    ensures Completed(all, s0, Run(plans, Start(s0, |plans|), es).store)
    ensures WFStore(crs, Run(plans, Start(s0, |plans|), es).store)
  {
    var y0 := Start(s0, |plans|);
    forall i | 0 <= i < |plans| ensures ProcOk(whos[i], plans[i], y0.procs[i], s0) {
      assert plans[i][0..] == plans[i];
    }
    RunKeepsInv(crs, whos, plans, all, s0, y0, es);
    var y := Run(plans, y0, es);
    forall k ensures At(y.store, k) == Effects(all, k, At(s0, k)) {
      forall a | a in all ensures Effect(a, k, At(y.store, k)) == At(y.store, k) {
        var i :| 0 <= i < |plans| && a in plans[i];
        assert ProcOk(whos[i], plans[i], y.procs[i], y.store);
        var j :| 0 <= j < |plans[i]| && plans[i][j] == a;
        assert Fixed(plans[i][j], y.store);
      }
      FixedEffects(all, k, At(y.store, k));
    }
  }

  // ----- Every worker can always finish -----

  lemma {:induction false} RunConcat(plans: seq<Actions>, y: System, a: seq<Event>, b: seq<Event>)
    ensures Run(plans, y, a + b) == Run(plans, Run(plans, y, a), b)
    decreases |a|
  {
    if a == [] {
      assert a + b == b;
    } else {
      assert (a + b)[1..] == a[1..] + b;
      RunConcat(plans, Happen(plans, y, a[0]), a[1..], b);
    }
  }

  predicate Placed(plans: seq<Actions>, y: System)
  {
    |y.procs| == |plans| && forall i :: 0 <= i < |plans| ==> y.procs[i].pos <= |plans[i]|
  }

  function KeysLeft(p: Proc): nat
  {
    if p.listed.Some? then |p.listed.value.keys| else 0
  }

  /** Left to itself, a worker completes its pass in finitely many calls. */
  lemma {:induction false} FinishOne(plans: seq<Actions>, y: System, i: nat) returns (es: seq<Event>)
    requires Placed(plans, y) && i < |plans|
    ensures var z := Run(plans, y, es);
      && Placed(plans, z) && z.procs[i].pos == |plans[i]| && z.procs[i].clean == y.procs[i].clean
      && forall j :: 0 <= j < |plans| && j != i ==> z.procs[j] == y.procs[j]
    decreases |plans[i]| - y.procs[i].pos, KeysLeft(y.procs[i]), if y.procs[i].phase.Idle? then 1 else 0
  {
    if y.procs[i].pos == |plans[i]| {
      es := [];
    } else {
      var next := Happen(plans, y, Advance(i));
      var rest := FinishOne(plans, next, i);
      es := [Advance(i)] + rest;
      assert es[1..] == rest;
    }
  }

  lemma {:induction false} FinishFirst(plans: seq<Actions>, y: System, n: nat) returns (es: seq<Event>)
    requires Placed(plans, y) && n <= |plans|
    ensures var z := Run(plans, y, es);
      Placed(plans, z) && forall i :: 0 <= i < n ==> z.procs[i].pos == |plans[i]| && z.procs[i].clean
  {
    if n == 0 {
      es := [];
    } else {
      var before := FinishFirst(plans, y, n - 1);
      var m := Run(plans, y, before);
      var again := Happen(plans, m, Requeue(n - 1));
      var last := FinishOne(plans, again, n - 1);
      es := before + ([Requeue(n - 1)] + last);
      RunConcat(plans, y, before, [Requeue(n - 1)] + last);
      assert ([Requeue(n - 1)] + last)[1..] == last;
    }
  }

  /** Whatever happened so far, the system can still get to a state where every worker has finished. */
  lemma AlwaysFinishable(plans: seq<Actions>, y: System) returns (es: seq<Event>)
    requires Placed(plans, y)
    ensures Finished(plans, Run(plans, y, es))
  {
    es := FinishFirst(plans, y, |plans|);
  }
}
