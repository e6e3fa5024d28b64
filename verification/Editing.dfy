/** Any number of reconcilers sharing one cluster while their users edit the specs. */
module Editing {
  import opened Text
  import opened Model
  import opened Names
  import opened Resources
  import opened Compare
  import opened Plan
  import opened Coherence
  import opened PlanFacts
  import opened Interleave
  import opened Outcomes
  import opened Convergence
  import opened Probes
  import Runs
  import History

  /** A pass: the spec that it started with, and how its tests for the CRD are answered. */
  datatype Job = Job(spec: Resource, tests: Tests)

  /** `running` are the workers' present passes, `latest` the stored specs. */
  datatype Cluster = Cluster(system: System, running: seq<Job>, latest: seq<Resource>)

  datatype Move =
    | Edits(i: nat, r: Resource)        // a user stores another spec
    | Advances(i: nat)                  // the next call of worker i succeeds
    | Ignores(i: nat)                   // it fails, and the code goes on regardless
    | Retries(i: nat, tests: Tests)     // it fails, or the operator stops, or the pass is over: worker i
                                        // starts a pass with the stored spec

  /** What a pass carries out; its failed tests may hide the CRD, or a wanted monitor. */
  function PlanOf(f: Runs.Planner, j: Job): Actions
  {
    PassPlan(Seen(f(j.spec), j.tests))
  }

  function PlansOf(f: Runs.Planner, js: seq<Job>): (ps: seq<Actions>)
    ensures |ps| == |js| && forall i :: 0 <= i < |js| ==> ps[i] == PlanOf(f, js[i])
  {
    seq(|js|, i requires 0 <= i < |js| => PlanOf(f, js[i]))
  }

  ghost function Step(f: Runs.Planner, y: Cluster, m: Move): Cluster
  {
    match m
    case Edits(i, r) =>
      if i < |y.latest| && r.core.who == y.latest[i].core.who then y.(latest := y.latest[i := r]) else y
    case Advances(i) => y.(system := Happen(PlansOf(f, y.running), y.system, Advance(i)))
    case Ignores(i) =>
      if i < |y.running| && i < |y.system.procs| && Skips(PlanOf(f, y.running[i]), y.system.procs[i].pos) > 0
      then y.(system := Happen(PlansOf(f, y.running), y.system, Ignored(i))) else y
    case Retries(i, tests) =>
      if i < |y.running| && i < |y.latest|
      then y.(system := Happen(PlansOf(f, y.running), y.system, Requeue(i)), running := y.running[i := Job(y.latest[i], tests)])
      else y
  }

  ghost function Play(f: Runs.Planner, y: Cluster, ms: seq<Move>): Cluster
    decreases |ms|
  {
    if ms == [] then y else Play(f, Step(f, y, ms[0]), ms[1..])
  }

  /** The last pass of worker `i` went through without a failed call or test, and the spec was not edited
      since it started. */
  predicate Settled(f: Runs.Planner, y: Cluster, i: nat)
  {
    && i < |y.running| && i < |y.latest| && i < |y.system.procs|
    && y.running[i].spec == y.latest[i] && AllAnswered(y.running[i].tests)
    && y.system.procs[i].pos == |PlanOf(f, y.running[i])| && y.system.procs[i].clean
  }

  function StartWith(s: Store, rs: seq<Resource>): Cluster
  {
    Cluster(Start(s, |rs|), seq(|rs|, i requires 0 <= i < |rs| => Job(rs[i], [])), rs)
  }

  // ----- Invariant -----

  ghost predicate WorkerOk(f: Runs.Planner, crs: set<Who>, who: Who, y: Cluster, i: nat)
    requires i < |y.running| && i < |y.latest| && i < |y.system.procs|
  {
    && who in crs && y.running[i].spec.core.who == who && y.latest[i].core.who == who
    && ProcOk(who, PlanOf(f, y.running[i]), y.system.procs[i], y.system.store)
  }

  ghost predicate Inv(f: Runs.Planner, crs: set<Who>, whos: seq<Who>, y: Cluster)
  {
    && ValidCrs(crs) && Runs.Proper(f) && WFStore(crs, y.system.store)
    && |whos| == |y.running| == |y.latest| == |y.system.procs|
    && (forall i, j :: 0 <= i < |whos| && 0 <= j < |whos| && whos[i] == whos[j] ==> i == j)
    && (forall i :: 0 <= i < |whos| ==> WorkerOk(f, crs, whos[i], y, i))
  }

  lemma PlanIsOwned(f: Runs.Planner, crs: set<Who>, j: Job)
    requires Runs.Proper(f) && j.spec.core.who in crs
    ensures OwnedPlan(crs, j.spec.core.who, PlanOf(f, j))
  {
    SeenIsGood(f(j.spec), j.tests);
    PassOwned(crs, Seen(f(j.spec), j.tests));
  }

  lemma TwoCoherent(crs: set<Who>, v: Who, p: Actions, w: Who, q: Actions)
    requires OwnedPlan(crs, v, p) && OwnedPlan(crs, w, q) && v != w
    ensures Coherent(crs, p + q)
  {
  }

  lemma WriteKeepsWF(crs: set<Who>, a: Action, k: Key, s: Store, t: Store)
    requires ValidCrs(crs) && a.who in crs && Disciplined(a) && WFStore(crs, s) && Wrote(a, k, s, t)
    ensures WFStore(crs, t)
  {
    assert WF(crs, k, At(s, k));
    KeepsWF(crs, a, k, At(s, k));
    forall j ensures WF(crs, j, At(t, j)) { assert WF(crs, j, At(s, j)); }
  }

  /** A call of one worker leaves the memories of another true. */
  lemma CallKeepsOther(crs: set<Who>, v: Who, p: Actions, a: Action, k: Key, s: Store, t: Store, w: Who, q: Actions, proc: Proc)
    requires ValidCrs(crs) && WFStore(crs, s) && OwnedPlan(crs, v, p) && OwnedPlan(crs, w, q) && v != w
    requires a in p && Wrote(a, k, s, t) && ProcOk(w, q, proc, s)
    ensures ProcOk(w, q, proc, t)
  {
    TwoCoherent(crs, v, p, w, q);
    WriteKeepsOther(crs, p + q, a, k, s, t, w, q, proc);
  }

  lemma OtherWorkerKept(f: Runs.Planner, crs: set<Who>, whos: seq<Who>, y: Cluster, i: nat, a: Action, k: Key, z: Cluster, j: nat)
    requires Inv(f, crs, whos, y) && i < |whos| && j < |whos| && i != j && a in PlanOf(f, y.running[i])
    requires Wrote(a, k, y.system.store, z.system.store)
    requires |z.system.procs| == |whos| && z.system.procs[j] == y.system.procs[j] && z.running == y.running && z.latest == y.latest
    ensures WorkerOk(f, crs, whos[j], z, j)
  {
    assert WorkerOk(f, crs, whos[i], y, i) && WorkerOk(f, crs, whos[j], y, j);
    PlanIsOwned(f, crs, y.running[i]);
    PlanIsOwned(f, crs, y.running[j]);
    CallKeepsOther(crs, whos[i], PlanOf(f, y.running[i]), a, k, y.system.store, z.system.store, whos[j],
                   PlanOf(f, y.running[j]), y.system.procs[j]);
  }

  lemma AfterAdvance(f: Runs.Planner, y: Cluster, i: nat, plan: Actions)
    requires i < |y.running| == |y.system.procs| && plan == PlanOf(f, y.running[i])
    ensures var (q, t) := Call(plan, y.system.procs[i], y.system.store);
      Step(f, y, Advances(i)) == y.(system := System(t, y.system.procs[i := q]))
  {
  }

  lemma OwnCall(crs: set<Who>, who: Who, plan: Actions, p: Proc, s: Store) returns (k: Key, wrote: bool)
    requires ValidCrs(crs) && WFStore(crs, s) && OwnedPlan(crs, who, plan) && ProcOk(who, plan, p, s) && p.pos < |plan|
    ensures ProcOk(who, plan, Call(plan, p, s).0, Call(plan, p, s).1)
    ensures if wrote then Wrote(plan[p.pos], k, s, Call(plan, p, s).1) else Call(plan, p, s).1 == s
  {
    k, wrote := CallKeepsOwn(crs, plan, who, plan, p, s);
  }

  lemma OwnWorkerKept(f: Runs.Planner, crs: set<Who>, whos: seq<Who>, y: Cluster, i: nat, plan: Actions) returns (k: Key, wrote: bool)
    requires Inv(f, crs, whos, y) && i < |whos| && plan == PlanOf(f, y.running[i]) && y.system.procs[i].pos < |plan|
    ensures var z := Step(f, y, Advances(i));
      && z == y.(system := z.system) && z.system.procs == y.system.procs[i := z.system.procs[i]]
      && WorkerOk(f, crs, whos[i], z, i)
      && if wrote then Wrote(plan[y.system.procs[i].pos], k, y.system.store, z.system.store)
         else z.system.store == y.system.store
  {
    assert WorkerOk(f, crs, whos[i], y, i);
    PlanIsOwned(f, crs, y.running[i]);
    AfterAdvance(f, y, i, plan);
    k, wrote := OwnCall(crs, whos[i], plan, y.system.procs[i], y.system.store);
  }

  lemma OwnedAction(crs: set<Who>, who: Who, plan: Actions, a: Action)
    requires OwnedPlan(crs, who, plan) && who in crs && a in plan
    ensures a.who in crs && Disciplined(a)
  {
  }

  lemma AdvanceKeeps(f: Runs.Planner, crs: set<Who>, whos: seq<Who>, y: Cluster, i: nat, plan: Actions) returns (k: Key, wrote: bool)
    requires Inv(f, crs, whos, y) && i < |whos| && plan == PlanOf(f, y.running[i]) && y.system.procs[i].pos < |plan|
    ensures var z := Step(f, y, Advances(i));
      && Inv(f, crs, whos, z)
      && if wrote then Wrote(plan[y.system.procs[i].pos], k, y.system.store, z.system.store)
         else z.system.store == y.system.store
  {
    k, wrote := OwnWorkerKept(f, crs, whos, y, i, plan);
    var a, z := plan[y.system.procs[i].pos], Step(f, y, Advances(i));
    assert WorkerOk(f, crs, whos[i], y, i) && a in plan;
    if wrote {
      PlanIsOwned(f, crs, y.running[i]);
      OwnedAction(crs, whos[i], plan, a);
      WriteKeepsWF(crs, a, k, y.system.store, z.system.store);
    }
    forall j | 0 <= j < |whos| && j != i ensures WorkerOk(f, crs, whos[j], z, j) {
      assert WorkerOk(f, crs, whos[j], y, j);
      if wrote { OtherWorkerKept(f, crs, whos, y, i, a, k, z, j); }
    }
  }

  lemma FreshWorkerOk(f: Runs.Planner, crs: set<Who>, who: Who, z: Cluster, i: nat)
    requires Runs.Proper(f) && who in crs && i < |z.running| == |z.latest| == |z.system.procs|
    requires z.running[i].spec.core.who == who && z.latest[i].core.who == who && z.system.procs[i] == FreshProc()
    ensures WorkerOk(f, crs, who, z, i)
  {
    PlanIsOwned(f, crs, z.running[i]);
    FreshProcOk(who, PlanOf(f, z.running[i]), z.system.store);
  }

  /** Nothing is due that could write. */
  predicate Quiet(f: Runs.Planner, y: Cluster, m: Move)
  {
    m.Advances? && m.i < |y.running| && m.i < |y.system.procs| ==> y.system.procs[m.i].pos >= |PlanOf(f, y.running[m.i])|
  }

  /** Such moves leave the store and the other workers as they are. */
  lemma QuietStep(f: Runs.Planner, y: Cluster, m: Move)
    requires |y.running| == |y.latest| == |y.system.procs| && Quiet(f, y, m)
    ensures var z := Step(f, y, m);
      && z.system.store == y.system.store && |z.running| == |z.latest| == |z.system.procs| == |y.running|
      && forall j :: 0 <= j < |y.running| ==>
           && z.latest[j].core.who == y.latest[j].core.who
           && ((z.running[j] == y.running[j] && z.system.procs[j] == y.system.procs[j])
              || (z.running[j].spec == y.latest[j] && z.system.procs[j] == FreshProc())
              || (z.running[j] == y.running[j] && Skips(PlanOf(f, y.running[j]), y.system.procs[j].pos) > 0
                  && z.system.procs[j] == Skip(y.system.procs[j], Skips(PlanOf(f, y.running[j]), y.system.procs[j].pos))))
  {
  }

  lemma QuietKeeps(f: Runs.Planner, crs: set<Who>, whos: seq<Who>, y: Cluster, m: Move)
    requires Inv(f, crs, whos, y) && Quiet(f, y, m)
    ensures Inv(f, crs, whos, Step(f, y, m)) && Step(f, y, m).system.store == y.system.store
  {
    var z := Step(f, y, m);
    QuietStep(f, y, m);
    forall j | 0 <= j < |whos| ensures WorkerOk(f, crs, whos[j], z, j) {
      assert WorkerOk(f, crs, whos[j], y, j);
      var plan, p := PlanOf(f, y.running[j]), y.system.procs[j];
      if z.running[j] == y.running[j] && z.system.procs[j] == p {
      } else if z.running[j].spec == y.latest[j] && z.system.procs[j] == FreshProc() {
        FreshWorkerOk(f, crs, whos[j], z, j);
      } else {
        IgnoredProcOk(whos[j], plan, p, y.system.store);
      }
    }
  }

  // ----- A worker can always settle, and errors can be ignored -----

  predicate Sized(f: Runs.Planner, y: Cluster, i: nat)
  {
    |y.running| == |y.latest| == |y.system.procs| && i < |y.running| && y.system.procs[i].pos <= |PlanOf(f, y.running[i])|
  }

  /** Left to itself, a worker goes through its pass in finitely many calls. */
  lemma {:induction false} CallsFinish(f: Runs.Planner, y: Cluster, i: nat, plan: Actions) returns (ms: seq<Move>)
    requires Sized(f, y, i) && plan == PlanOf(f, y.running[i])
    ensures var z := Play(f, y, ms);
      && z.running == y.running && z.latest == y.latest && |z.system.procs| == |y.system.procs|
      && z.system.procs[i].pos == |plan| && z.system.procs[i].clean == y.system.procs[i].clean
    decreases |plan| - y.system.procs[i].pos, KeysLeft(y.system.procs[i]), if y.system.procs[i].phase.Idle? then 1 else 0
  {
    if y.system.procs[i].pos == |plan| {
      ms := [];
    } else {
      AfterAdvance(f, y, i, plan);
      var rest := CallsFinish(f, Step(f, y, Advances(i)), i, plan);
      ms := [Advances(i)] + rest;
      assert ms[1..] == rest;
    }
  }

  /** Whatever happened so far, every worker can still settle on the stored spec. */
  lemma CanSettle(f: Runs.Planner, y: Cluster, i: nat) returns (ms: seq<Move>)
    requires Sized(f, y, i)
    ensures Settled(f, Play(f, y, ms), i) && Play(f, y, ms).latest == y.latest
  {
    var z := Step(f, y, Retries(i, []));
    var rest := CallsFinish(f, z, i, PlanOf(f, z.running[i]));
    ms := [Retries(i, [])] + rest;
    assert ms[1..] == rest;
  }

  /** An action whose failure the code ignores: on one object, or, for monitors, listing them. */
  predicate Ignorable(plan: Actions, n: nat)
  {
    && n < |plan|
    && match plan[n].op
       case Ensure(_, _) => true
       case DropOwned(k) => k.kind == ServiceMonitor
       case Snap(kind, _) => kind == ServiceMonitor && n + 1 < |plan| && plan[n + 1].op.Sweep?
       case Sweep(_, _) => false
  }

  /** After an ignored failure nothing has changed in the cluster, and the worker goes on with the action after
      it, or, if it was to list monitors, after their deletion; its pass no longer counts as a good one. */
  lemma IgnoredGoesOn(f: Runs.Planner, y: Cluster, i: nat, n: nat)
    requires Sized(f, y, i) && n == y.system.procs[i].pos && Ignorable(PlanOf(f, y.running[i]), n)
    ensures var z, plan := Step(f, y, Ignores(i)), PlanOf(f, y.running[i]);
      && z.running == y.running && z.latest == y.latest && z.system.store == y.system.store && |z.system.procs| == |y.system.procs|
      && z.system.procs[i].pos == (if plan[n].op.Snap? then n + 2 else n + 1) && z.system.procs[i].phase.Idle?
      && !z.system.procs[i].clean && forall j :: 0 <= j < |y.system.procs| && j != i ==> z.system.procs[j] == y.system.procs[j]
  {
  }

  // ----- What is stored under one key -----

  /** The setting of the theorem for one key of one worker: what its specs want there is a closed family. */
  ghost predicate Watched(f: Runs.Planner, crd: bool, family: Obj -> bool, who: Who, c: Component, k: Key)
  {
    Runs.Closed(crd, family, who, c, k) && Runs.WantsWithin(f, family, who, c, k)
  }

  lemma OwnWriteStays(f: Runs.Planner, crd: bool, family: Obj -> bool, r: Job, c: Component, k: Key, a: Action, slot: Slot)
    requires Runs.Proper(f) && Watched(f, crd, family, r.spec.core.who, c, k) && a in PlanOf(f, r) && Runs.Within(family, slot)
    ensures Runs.Within(family, Effect(a, k, slot))
  {
    Runs.StaysWithin(crd, family, f(r.spec), r.tests, c, a, k, slot);
  }

  lemma WriteStays(f: Runs.Planner, crs: set<Who>, crd: bool, family: Obj -> bool, who: Who, r: Job, c: Component, k: Key,
                   a: Action, j: Key, s: Store, t: Store)
    requires ValidCrs(crs) && WFStore(crs, s) && who in crs && r.spec.core.who in crs
    requires Runs.Proper(f) && Watched(f, crd, family, who, c, k) && a in PlanOf(f, r) && Wrote(a, j, s, t)
    requires Runs.Within(family, At(s, k))
    ensures Runs.Within(family, At(t, k))
  {
    if j == k {
      PlanIsOwned(f, crs, r);
      if r.spec.core.who == who {
        OwnWriteStays(f, crd, family, r, c, k, a, At(s, k));
      } else {
        assert WF(crs, k, At(s, k));
        ActionClaimed(crs, who, k, c);
        Foreign(crs, a, k, At(s, k));
      }
    }
  }

  lemma ActionClaimed(crs: set<Who>, who: Who, k: Key, c: Component)
    requires who in crs && NameOwner(k) == Some(Owner(who.ns, who.name, c))
    ensures Claimed(crs, k)
  {
  }

  lemma StepStays(f: Runs.Planner, crs: set<Who>, whos: seq<Who>, y: Cluster, m: Move, crd: bool, family: Obj -> bool,
                  i: nat, c: Component, k: Key)
    requires Inv(f, crs, whos, y) && i < |whos| && Watched(f, crd, family, whos[i], c, k)
    requires Runs.Within(family, At(y.system.store, k))
    ensures Inv(f, crs, whos, Step(f, y, m)) && Runs.Within(family, At(Step(f, y, m).system.store, k))
  {
    if Quiet(f, y, m) {
      QuietKeeps(f, crs, whos, y, m);
    } else {
      var n, plan := m.i, PlanOf(f, y.running[m.i]);
      assert WorkerOk(f, crs, whos[n], y, n) && WorkerOk(f, crs, whos[i], y, i);
      var j, wrote := AdvanceKeeps(f, crs, whos, y, n, plan);
      var a := plan[y.system.procs[n].pos];
      assert a in plan;
      if wrote {
        WriteStays(f, crs, crd, family, whos[i], y.running[n], c, k, a, j, y.system.store, Step(f, y, m).system.store);
      }
    }
  }

  lemma {:induction false} PlayKeepsInv(f: Runs.Planner, crs: set<Who>, whos: seq<Who>, y: Cluster, ms: seq<Move>)
    requires Inv(f, crs, whos, y)
    ensures Inv(f, crs, whos, Play(f, y, ms))
    decreases |ms|
  {
    if ms != [] {
      if Quiet(f, y, ms[0]) {
        QuietKeeps(f, crs, whos, y, ms[0]);
      } else {
        var k, wrote := AdvanceKeeps(f, crs, whos, y, ms[0].i, PlanOf(f, y.running[ms[0].i]));
      }
      PlayKeepsInv(f, crs, whos, Step(f, y, ms[0]), ms[1..]);
    }
  }

  lemma {:induction false} PlayStays(f: Runs.Planner, crs: set<Who>, whos: seq<Who>, y: Cluster, ms: seq<Move>, crd: bool,
                                     family: Obj -> bool, i: nat, c: Component, k: Key)
    requires Inv(f, crs, whos, y) && i < |whos| && Watched(f, crd, family, whos[i], c, k)
    requires Runs.Within(family, At(y.system.store, k))
    ensures Inv(f, crs, whos, Play(f, y, ms)) && Runs.Within(family, At(Play(f, y, ms).system.store, k))
    decreases |ms|
  {
    if ms != [] {
      StepStays(f, crs, whos, y, ms[0], crd, family, i, c, k);
      PlayStays(f, crs, whos, Step(f, y, ms[0]), ms[1..], crd, family, i, c, k);
    }
  }

  lemma SettledActionFixed(f: Runs.Planner, crs: set<Who>, whos: seq<Who>, y: Cluster, i: nat, a: Action)
    requires Inv(f, crs, whos, y) && i < |whos| && Settled(f, y, i) && a in PassPlan(f(y.latest[i]))
    ensures Fixed(a, y.system.store)
  {
    var p := PlanOf(f, y.running[i]);
    AnsweredSeesAll(f(y.latest[i]), y.running[i].tests);
    assert WorkerOk(f, crs, whos[i], y, i);
    var j :| 0 <= j < |p| && p[j] == a;
    assert Fixed(p[j], y.system.store);
  }

  /** What a worker that has settled left in place is what one more pass would leave. */
  lemma SettledIsFixed(f: Runs.Planner, crs: set<Who>, whos: seq<Who>, y: Cluster, i: nat)
    requires Inv(f, crs, whos, y) && i < |whos| && Settled(f, y, i)
    ensures Completed(PassPlan(f(y.latest[i])), y.system.store, y.system.store)
  {
    var p, s := PassPlan(f(y.latest[i])), y.system.store;
    forall k ensures At(s, k) == Effects(p, k, At(s, k)) {
      forall a | a in p ensures Effect(a, k, At(s, k)) == At(s, k) { SettledActionFixed(f, crs, whos, y, i, a); }
      FixedEffects(p, k, At(s, k));
    }
  }

  function WhosOf(rs: seq<Resource>): (ws: seq<Who>)
    ensures |ws| == |rs| && forall i :: 0 <= i < |rs| ==> ws[i] == rs[i].core.who
  {
    seq(|rs|, i requires 0 <= i < |rs| => rs[i].core.who)
  }

  /** Several instances, and a well-formed cluster. */
  ghost predicate Sharing(crs: set<Who>, rs: seq<Resource>, s: Store)
  {
    && ValidCrs(crs) && WFStore(crs, s)
    && (forall i :: 0 <= i < |rs| ==> rs[i].core.who in crs)
    && (forall i, j :: 0 <= i < |rs| && 0 <= j < |rs| && rs[i].core.who == rs[j].core.who ==> i == j)
  }

  lemma StartOk(f: Runs.Planner, crs: set<Who>, rs: seq<Resource>, s: Store)
    requires Runs.Proper(f) && Sharing(crs, rs, s)
    ensures Inv(f, crs, WhosOf(rs), StartWith(s, rs))
  {
    var whos, y := WhosOf(rs), StartWith(s, rs);
    forall i | 0 <= i < |whos| ensures WorkerOk(f, crs, whos[i], y, i) {
      FreshWorkerOk(f, crs, whos[i], y, i);
    }
  }

  /** Whatever happened before: once a worker has settled, its stored spec finds nothing left to do, under any
      key, the lagging Deployments included. */
  lemma SettledHasNothingToDo(w: World, crs: set<Who>, rs: seq<Resource>, s: Store, ms: seq<Move>, i: nat)
    requires Sharing(crs, rs, s) && i < |rs|
    requires Settled(History.Builders(w), Play(History.Builders(w), StartWith(s, rs), ms), i)
    ensures var y := Play(History.Builders(w), StartWith(s, rs), ms);
      Completed(PassPlan(DesiredOf(w, y.latest[i])), y.system.store, y.system.store)
  {
    var f := History.Builders(w);
    History.BuildersAreProper(w);
    StartOk(f, crs, rs, s);
    PlayKeepsInv(f, crs, WhosOf(rs), StartWith(s, rs), ms);
    SettledIsFixed(f, crs, WhosOf(rs), Play(f, StartWith(s, rs), ms), i);
  }

  // ----- Specs that stay as they are -----

  predicate Unedited(ms: seq<Move>)
  {
    forall m :: m in ms ==> !m.Edits?
  }

  ghost predicate NoSlip(f: Runs.Planner, j: Job)
  {
    forall c :: !Slipped(f(j.spec), j.tests, c)
  }

  /** No pass deletes what it wants under `k`: `k` is no monitor, or no test slips. */
  ghost predicate Harmless(f: Runs.Planner, j: Job, k: Key)
  {
    k.kind != ServiceMonitor || NoSlip(f, j)
  }

  ghost predicate HarmlessRetries(f: Runs.Planner, rs: seq<Resource>, ms: seq<Move>, k: Key)
  {
    forall m :: m in ms && m.Retries? && m.i < |rs| ==> Harmless(f, Job(rs[m.i], m.tests), k)
  }

  /** All workers run the specs of the beginning. */
  ghost predicate Steady(f: Runs.Planner, rs: seq<Resource>, y: Cluster, k: Key)
  {
    y.latest == rs && |y.running| == |rs| && forall i :: 0 <= i < |rs| ==> y.running[i].spec == rs[i] && Harmless(f, y.running[i], k)
  }

  function Wishes(f: Runs.Planner, rs: seq<Resource>): (ds: seq<Desired>)
    ensures |ds| == |rs| && forall i :: 0 <= i < |rs| ==> ds[i] == f(rs[i])
  {
    seq(|rs|, i requires 0 <= i < |rs| => f(rs[i]))
  }

  /** What one complete pass of each instance, in turn, does. */
  function Everything(f: Runs.Planner, rs: seq<Resource>): Actions
  {
    AllActions(Plans(Wishes(f, rs)))
  }

  lemma WishesCohere(f: Runs.Planner, crs: set<Who>, rs: seq<Resource>, s: Store)
    requires Runs.Proper(f) && Sharing(crs, rs, s)
    ensures Coherent(crs, Everything(f, rs))
  {
    InstancesCoherent(crs, Wishes(f, rs));
  }

  lemma InEverything(f: Runs.Planner, rs: seq<Resource>, i: nat, a: Action)
    requires i < |rs| && a in PassPlan(f(rs[i]))
    ensures a in Everything(f, rs)
  {
    var ps := Plans(Wishes(f, rs));
    assert a in ps[i];
    InAllActions(ps, a);
  }

  lemma OfSomeone(f: Runs.Planner, rs: seq<Resource>, a: Action) returns (i: nat)
    requires a in Everything(f, rs)
    ensures i < |rs| && a in PassPlan(f(rs[i]))
  {
    var ps := Plans(Wishes(f, rs));
    InAllActions(ps, a);
    i :| 0 <= i < |ps| && a in ps[i];
  }

  ghost predicate GoalAt(all: Actions, k: Key, s0: Store, s: Store)
  {
    Effects(all, k, At(s, k)) == Effects(all, k, At(s0, k))
  }

  lemma WriteKeepsGoalAt(crs: set<Who>, all: Actions, d: Desired, ts: Tests, a: Action, j: Key, k: Key, s0: Store, s: Store, t: Store)
    requires ValidCrs(crs) && Coherent(crs, all) && WFStore(crs, s) && (forall b :: b in PassPlan(d) ==> b in all)
    requires a in PassPlan(Seen(d, ts)) && Wrote(a, j, s, t) && GoalAt(all, k, s0, s)
    requires k.kind == ServiceMonitor ==> forall c :: !Slipped(d, ts, c)
    ensures GoalAt(all, k, s0, t)
  {
    SeenActionIn(d, ts, a);
    if a in PassPlan(d) {
      assert WF(crs, k, At(s, k));
      if j == k { Absorb(crs, all, all, a, k, At(s, k)); }
    }
  }

  lemma StepKeepsSteady(f: Runs.Planner, rs: seq<Resource>, y: Cluster, m: Move, k: Key)
    requires Steady(f, rs, y, k) && !m.Edits? && (m.Retries? && m.i < |rs| ==> Harmless(f, Job(rs[m.i], m.tests), k))
    ensures Steady(f, rs, Step(f, y, m), k)
  {
  }

  lemma StepKeepsGoalAt(f: Runs.Planner, crs: set<Who>, rs: seq<Resource>, all: Actions, s0: Store, y: Cluster, m: Move, k: Key)
    requires Inv(f, crs, WhosOf(rs), y) && Steady(f, rs, y, k) && Coherent(crs, all) && GoalAt(all, k, s0, y.system.store)
    requires forall i, a :: 0 <= i < |rs| && a in PassPlan(f(rs[i])) ==> a in all
    ensures Inv(f, crs, WhosOf(rs), Step(f, y, m)) && GoalAt(all, k, s0, Step(f, y, m).system.store)
  {
    var whos := WhosOf(rs);
    if Quiet(f, y, m) {
      QuietKeeps(f, crs, whos, y, m);
    } else {
      var n, job := m.i, y.running[m.i];
      var plan := PlanOf(f, job);
      var j, wrote := AdvanceKeeps(f, crs, whos, y, n, plan);
      var a := plan[y.system.procs[n].pos];
      assert a in plan;
      if wrote {
        WriteKeepsGoalAt(crs, all, f(job.spec), job.tests, a, j, k, s0, y.system.store, Step(f, y, m).system.store);
      }
    }
  }

  lemma {:induction false} PlayKeepsGoalAt(f: Runs.Planner, crs: set<Who>, rs: seq<Resource>, all: Actions, s0: Store, y: Cluster,
                                           ms: seq<Move>, k: Key)
    requires Inv(f, crs, WhosOf(rs), y) && Steady(f, rs, y, k) && Coherent(crs, all) && GoalAt(all, k, s0, y.system.store)
    requires forall i, a :: 0 <= i < |rs| && a in PassPlan(f(rs[i])) ==> a in all
    requires Unedited(ms) && HarmlessRetries(f, rs, ms, k)
    ensures Inv(f, crs, WhosOf(rs), Play(f, y, ms)) && Steady(f, rs, Play(f, y, ms), k)
    ensures GoalAt(all, k, s0, Play(f, y, ms).system.store)
    decreases |ms|
  {
    if ms != [] {
      assert ms[0] in ms;
      StepKeepsSteady(f, rs, y, ms[0], k);
      StepKeepsGoalAt(f, crs, rs, all, s0, y, ms[0], k);
      PlayKeepsGoalAt(f, crs, rs, all, s0, Step(f, y, ms[0]), ms[1..], k);
    }
  }

  lemma AllSettledFixed(f: Runs.Planner, crs: set<Who>, rs: seq<Resource>, all: Actions, y: Cluster, k: Key)
    requires Inv(f, crs, WhosOf(rs), y) && y.latest == rs && forall i :: 0 <= i < |rs| ==> Settled(f, y, i)
    requires all == Everything(f, rs)
    ensures Effects(all, k, At(y.system.store, k)) == At(y.system.store, k)
  {
    var s := y.system.store;
    forall a | a in all ensures Effect(a, k, At(s, k)) == At(s, k) {
      var i := OfSomeone(f, rs, a);
      SettledActionFixed(f, crs, WhosOf(rs), y, i, a);
    }
    FixedEffects(all, k, At(s, k));
  }

  /** The specs stay as they are, but calls and tests fail and passes are cut off at any point: once every
      worker has settled, every object but a monitor is what one uninterrupted pass of each instance, in
      turn, makes of the first cluster. So is every monitor, if no test slipped. */
  lemma FixedSpecsConverge(w: World, crs: set<Who>, rs: seq<Resource>, s: Store, ms: seq<Move>, k: Key)
    requires Sharing(crs, rs, s) && Unedited(ms) && HarmlessRetries(History.Builders(w), rs, ms, k)
    requires forall i :: 0 <= i < |rs| ==> Settled(History.Builders(w), Play(History.Builders(w), StartWith(s, rs), ms), i)
    ensures At(Play(History.Builders(w), StartWith(s, rs), ms).system.store, k)
         == Effects(Everything(History.Builders(w), rs), k, At(s, k))
  {
    History.BuildersAreProper(w);
    PlansConverge(History.Builders(w), crs, rs, s, ms, k);
  }

  lemma StartSteady(f: Runs.Planner, rs: seq<Resource>, s: Store, k: Key)
    ensures Steady(f, rs, StartWith(s, rs), k)
  {
  }

  lemma PlansConverge(f: Runs.Planner, crs: set<Who>, rs: seq<Resource>, s: Store, ms: seq<Move>, k: Key)
    requires Runs.Proper(f) && Sharing(crs, rs, s) && Unedited(ms) && HarmlessRetries(f, rs, ms, k)
    requires forall i :: 0 <= i < |rs| ==> Settled(f, Play(f, StartWith(s, rs), ms), i)
    ensures At(Play(f, StartWith(s, rs), ms).system.store, k) == Effects(Everything(f, rs), k, At(s, k))
  {
    var y0, all := StartWith(s, rs), Everything(f, rs);
    StartOk(f, crs, rs, s);
    StartSteady(f, rs, s, k);
    WishesCohere(f, crs, rs, s);
    forall i, a | 0 <= i < |rs| && a in PassPlan(f(rs[i])) ensures a in all { InEverything(f, rs, i, a); }
    PlayKeepsGoalAt(f, crs, rs, all, s, y0, ms, k);
    AllSettledFixed(f, crs, rs, all, Play(f, y0, ms), k);
  }

  /** There is nothing, or what some spec of its CR generates, under a tracked key. */
  ghost predicate Watching(w: World, r: Resource, s: Store, c: Component, k: Key)
  {
    Faithful(w) && Runs.Tracked(r.core.who, c, k) && Runs.Within(History.Family(w, r.core.who, c, k), At(s, k))
  }

  /** Any number of instances in one cluster, their API calls interleaved in any way, their users editing the
      specs at any time, calls and tests failing (also so that a wanted monitor is deleted) and passes cut off
      at any point: once a worker has gone through one pass with the stored spec, every tracked object of its
      instance is the one generated from that spec, and there is none where the spec wants none, whatever the
      others are doing. */
  lemma EditsConverge(w: World, crs: set<Who>, rs: seq<Resource>, s: Store, ms: seq<Move>, i: nat, c: Component, k: Key)
    requires Sharing(crs, rs, s) && i < |rs| && Watching(w, rs[i], s, c, k)
    requires Settled(History.Builders(w), Play(History.Builders(w), StartWith(s, rs), ms), i)
    ensures var y := Play(History.Builders(w), StartWith(s, rs), ms);
      At(y.system.store, k) == History.Target(w, y.latest[i], c, k)
  {
    var f := History.Builders(w);
    History.BuildersFit(w, rs[i].core.who, c, k);
    StartOk(f, crs, rs, s);
    ConvergesThere(w, f, crs, WhosOf(rs), StartWith(s, rs), ms, i, c, k);
  }

  lemma ConvergesThere(w: World, f: Runs.Planner, crs: set<Who>, whos: seq<Who>, y0: Cluster, ms: seq<Move>, i: nat, c: Component, k: Key)
    requires Inv(f, crs, whos, y0) && i < |whos| && f == History.Builders(w) && Faithful(w)
    requires Runs.Tracked(whos[i], c, k) && Watched(f, w.crd, History.Family(w, whos[i], c, k), whos[i], c, k)
    requires Runs.Within(History.Family(w, whos[i], c, k), At(y0.system.store, k)) && Settled(f, Play(f, y0, ms), i)
    ensures var y := Play(f, y0, ms); At(y.system.store, k) == History.Target(w, y.latest[i], c, k)
  {
    PlayStays(f, crs, whos, y0, ms, w.crd, History.Family(w, whos[i], c, k), i, c, k);
    var y := Play(f, y0, ms);
    assert WorkerOk(f, crs, whos[i], y, i);
    SettledIsFixed(f, crs, whos, y, i);
    SettlesThere(w, y.latest[i], c, k, y.system.store);
  }

  lemma SettlesThere(w: World, r: Resource, c: Component, k: Key, s: Store)
    requires Faithful(w) && Runs.Tracked(r.core.who, c, k)
    requires Runs.Within(History.Family(w, r.core.who, c, k), At(s, k))
    requires Completed(PassPlan(History.Builders(w)(r)), s, s)
    ensures At(s, k) == History.Target(w, r, c, k)
  {
    BundlesOfDesired(w, r, c);
    History.SettlesOnTarget(w, r, DesiredOf(w, r), c, k, s, s);
  }
}
