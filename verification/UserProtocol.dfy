/** The finalizer protocol of one Open5GSUser: the worker's API calls, interleaved with its user. */
module UserProtocol {
  import opened Text
  import opened Subscribers

  function Finalizer(): string {
    "finalizer.open5gsuser.net.gradiant.org/user"
  }

  /** The stored custom resource; every write to it changes the version. */
  datatype Cr = Cr(user: User, deleting: bool, finalizers: seq<string>, version: nat)

  /** Where a user's document belongs: the MongoDB of an instance, under an IMSI. */
  datatype Target = Target(instance: string, imsi: string)

  function TargetOf(u: User): Target
  {
    Target(u.instance, u.imsi)
  }

  /** The documents of the targets that this user resource ever names; they belong to no one else. */
  type Filed = map<Target, Docs>

  function DocsAt(f: Filed, t: Target): Docs
  {
    if t in f then f[t] else []
  }

  predicate WellFiled(f: Filed)
  {
    forall t, i :: t in f && 0 <= i < |f[t]| ==> f[t][i].imsi == t.imsi
  }

  predicate Nowhere(f: Filed)
  {
    forall t :: t in f ==> f[t] == []
  }

  /** Why the finalizer was removed: the document was deleted, or the instance or its MongoDB service could
      not be read. */
  datatype Why = Deleted | NoService
  datatype Release = Release(why: Why, target: Target)

  /** Where the worker is, with the copy of the CR that its pass works on. */
  datatype Worker =
    | Idle
    | Unmarked(cr: Cr)               // read, not being deleted, finalizer missing
    | Marked(cr: Cr)                 // finalizer stored; next: look up the service
    | Located(cr: Cr)                // next: find the document
    | Inserting(cr: Cr)
    | Updating(cr: Cr)
    | Leaving(cr: Cr)                // being deleted; next: look up the service
    | Dropping(cr: Cr)               // next: delete the document
    | Releasing(cr: Cr, why: Why)     // next: remove the finalizer

  /** `inserted` and `dropped` record where a document was inserted and where one was deleted so far. */
  datatype State = State(
    driver: Driver, cr: Option<Cr>, docs: Filed, worker: Worker, release: Option<Release>,
    inserted: set<Target>, dropped: set<Target>)

  datatype Event =
    | UserDeletes
    | UserEdits(user: User)     // any field, the instance and the IMSI included
    | Restart                   // the worker's pass is cut off
    | Get(ok: bool)
    | AddFinalizer(ok: bool)
    | Lookup(found: bool)       // false: not there, or the call failed
    | Find(ok: bool)
    | Insert(ok: bool)
    | Update(ok: bool)
    | Delete(ok: bool)
    | RemoveFinalizer(ok: bool)

  predicate Contains(xs: seq<string>, x: string)
  {
    x in xs
  }

  function Without(xs: seq<string>, x: string): (r: seq<string>)
    ensures x !in r && forall y :: y in r ==> y in xs
  {
    if xs == [] then [] else (if xs[0] != x then [xs[0]] else []) + Without(xs[1..], x)
  }

  lemma {:induction false} WithoutAppend(xs: seq<string>, y: string, x: string)
    ensures Without(xs + [y], x) == Without(xs, x) + (if y != x then [y] else [])
  {
    if xs == [] {
      assert [y][1..] == [] && xs + [y] == [y];
    } else {
      assert (xs + [y])[1..] == xs[1..] + [y];
      WithoutAppend(xs[1..], y, x);
    }
  }

  /** containsString */
  method ContainsString(xs: seq<string>, x: string) returns (found: bool)
    ensures found <==> Contains(xs, x)
  {
    for i := 0 to |xs|
      invariant x !in xs[..i]
    {
      if xs[i] == x {
        return true;
      }
    }
    found := false;
  }

  /** removeString */
  method RemoveString(xs: seq<string>, x: string) returns (result: seq<string>)
    ensures result == Without(xs, x)
  {
    result := [];
    for i := 0 to |xs|
      invariant result == Without(xs[..i], x)
    {
      assert xs[..i + 1] == xs[..i] + [xs[i]];
      WithoutAppend(xs[..i], xs[i], x);
      if xs[i] != x {
        result := result + [xs[i]];
      }
    }
    assert xs[..|xs|] == xs;
  }

  // ----- The API server's side -----

  /** A user deletes the CR: it stays, marked, while it has finalizers. */
  function Deletion(c: Cr): Option<Cr>
  {
    if c.finalizers == [] then None
    else if c.deleting then Some(c)
    else Some(c.(deleting := true, version := c.version + 1))
  }

  /** An update goes through only on the version that was read; a CR being deleted goes away with its
      last finalizer. */
  predicate UpdateAccepted(stored: Option<Cr>, c: Cr)
  {
    stored.Some? && stored.value.version == c.version
  }

  function Stored(c: Cr, finalizers: seq<string>): Option<Cr>
  {
    if c.deleting && finalizers == [] then None
    else Some(c.(finalizers := finalizers, version := c.version + 1))
  }

  // ----- One event -----

  function AfterGet(stored: Option<Cr>): Worker
  {
    if stored.None? then Idle
    else
      var c := stored.value;
      if c.deleting then (if Contains(c.finalizers, Finalizer()) then Leaving(c) else Idle)
      else if Contains(c.finalizers, Finalizer()) then Marked(c) else Unmarked(c)
  }

  function Happen(s: State, e: Event): State
  {
    match (e, s.worker)
    case (UserDeletes, _) => if s.cr.None? then s else s.(cr := Deletion(s.cr.value))
    case (UserEdits(u), _) =>
      if s.cr.None? then s else s.(cr := Some(s.cr.value.(user := u, version := s.cr.value.version + 1)))
    case (Restart, _) => s.(worker := Idle)
    case (Get(ok), Idle) => s.(worker := if ok then AfterGet(s.cr) else Idle)
    case (AddFinalizer(ok), Unmarked(c)) =>
      if ok && UpdateAccepted(s.cr, c) then
        var marked := c.(finalizers := c.finalizers + [Finalizer()], version := c.version + 1);
        s.(cr := Some(marked), worker := Marked(marked))
      else s.(worker := Idle)
    case (Lookup(found), Marked(c)) => s.(worker := if found then Located(c) else Idle)
    case (Lookup(found), Leaving(c)) => s.(worker := if found then Dropping(c) else Releasing(c, NoService))
    case (Find(ok), Located(c)) =>
      var mine := DocsAt(s.docs, TargetOf(c.user));
      s.(worker :=
        if !ok then Idle
        else if mine == [] then Inserting(c)
        else if HasDrift(c.user, mine[0]) then Updating(c) else Idle)
    case (Insert(ok), Inserting(c)) =>
      var t, d := TargetOf(c.user), NewDoc(s.driver, c.user);
      if ok && d.Some? then
        s.(worker := Idle, docs := s.docs[t := DocsAt(s.docs, t) + [d.value]], inserted := s.inserted + {t})
      else s.(worker := Idle)
    case (Update(ok), Updating(c)) =>
      var t, mine := TargetOf(c.user), DocsAt(s.docs, TargetOf(c.user));
      var d := if mine == [] then None else UpdatedDoc(s.driver, c.user, mine[0]);
      if ok && d.Some? then s.(worker := Idle, docs := s.docs[t := mine[0 := d.value]]) else s.(worker := Idle)
    case (Delete(ok), Dropping(c)) =>
      var t, mine := TargetOf(c.user), DocsAt(s.docs, TargetOf(c.user));
      if ok && mine != [] then
        s.(worker := Releasing(c, Deleted), docs := s.docs[t := mine[1..]], dropped := s.dropped + {t})
      else s.(worker := Idle)
    case (RemoveFinalizer(ok), Releasing(c, why)) =>
      if ok && UpdateAccepted(s.cr, c) then
        s.(cr := Stored(c, Without(c.finalizers, Finalizer())), worker := Idle,
           release := Some(Release(why, TargetOf(c.user))))
      else s.(worker := Idle)
    case _ => s
  }

  function Run(s: State, es: seq<Event>): State
    decreases |es|
  {
    if es == [] then s else Run(Happen(s, es[0]), es[1..])
  }

  lemma {:induction false} RunConcat(s: State, a: seq<Event>, b: seq<Event>)
    ensures Run(s, a + b) == Run(Run(s, a), b)
    decreases |a|
  {
    if a == [] {
      assert a + b == b;
    } else {
      assert (a + b)[1..] == a[1..] + b;
      RunConcat(Happen(s, a[0]), a[1..], b);
    }
  }

  // ----- Invariant -----

  predicate Carries(stored: Option<Cr>)
  {
    stored.Some? && Contains(stored.value.finalizers, Finalizer())
  }

  /** The worker's copy is the stored CR, or an older version of it. */
  predicate CopyOf(c: Cr, stored: Option<Cr>)
  {
    stored.Some? ==> c.version <= stored.value.version && (c.version == stored.value.version ==> c == stored.value)
  }

  predicate WorkerOk(s: State)
  {
    match s.worker
    case Idle => true
    case Unmarked(c) => CopyOf(c, s.cr) && !c.deleting
    case Marked(c) => CopyOf(c, s.cr) && Carries(s.cr) && s.dropped == {}
    case Located(c) => CopyOf(c, s.cr) && Carries(s.cr) && s.dropped == {}
    case Inserting(c) =>
      CopyOf(c, s.cr) && Carries(s.cr) && s.dropped == {} && DocsAt(s.docs, TargetOf(c.user)) == []
    case Updating(c) =>
      CopyOf(c, s.cr) && Carries(s.cr) && s.dropped == {} && DocsAt(s.docs, TargetOf(c.user)) != []
    case Leaving(c) => CopyOf(c, s.cr) && c.deleting && Carries(s.cr) && s.cr.value.deleting
    case Dropping(c) => CopyOf(c, s.cr) && c.deleting && Carries(s.cr) && s.cr.value.deleting
    case Releasing(c, why) =>
      && CopyOf(c, s.cr) && c.deleting && Carries(s.cr) && s.cr.value.deleting
      && (why == Deleted ==> TargetOf(c.user) in s.dropped)
  }

  /** A target holds one document if one was inserted there and none was deleted there since, and otherwise
      none. */
  ghost predicate Accounted(s: State)
  {
    forall t :: |DocsAt(s.docs, t)| == if t in s.inserted && t !in s.dropped then 1 else 0
  }

  ghost predicate Inv(s: State)
  {
    && WorkerOk(s) && WellFiled(s.docs) && Accounted(s)
    && (s.inserted != {} ==> Carries(s.cr) || s.release.Some?)
    && (s.dropped != {} ==> s.cr.None? || s.cr.value.deleting)
    && (s.release.Some? ==> s.cr.None? || (s.cr.value.deleting && !Carries(s.cr)))
    && (s.release.Some? && s.release.value.why == Deleted ==> s.release.value.target in s.dropped)
  }

  /** A new CR, before its first pass: no document for it yet, and no one put the finalizer there. */
  predicate Fresh(s: State)
  {
    && s.cr.Some? && !s.cr.value.deleting && !Carries(s.cr)
    && Nowhere(s.docs) && s.inserted == {} && s.dropped == {} && s.worker == Idle && s.release.None?
  }

  lemma FreshInv(s: State)
    requires Fresh(s)
    ensures Inv(s)
  {
  }

  /** Events that write the CR. */
  predicate WritesCr(e: Event)
  {
    e.UserDeletes? || e.UserEdits? || e.AddFinalizer? || e.RemoveFinalizer?
  }

  /** Events that write a document. */
  predicate WritesDoc(e: Event)
  {
    e.Insert? || e.Update? || e.Delete?
  }

  lemma CrWriteKeepsInv(s: State, e: Event)
    requires Inv(s) && WritesCr(e)
    ensures Inv(Happen(s, e))
  {
  }

  lemma DocWriteKeepsInv(s: State, e: Event)
    requires Inv(s) && WritesDoc(e)
    ensures Inv(Happen(s, e))
  {
  }

  lemma HappenKeepsInv(s: State, e: Event)
    requires Inv(s)
    ensures Inv(Happen(s, e))
  {
    if WritesCr(e) {
      CrWriteKeepsInv(s, e);
    } else if WritesDoc(e) {
      DocWriteKeepsInv(s, e);
    }
  }

  lemma {:induction false} RunKeepsInv(s: State, es: seq<Event>)
    requires Inv(s)
    ensures Inv(Run(s, es))
    decreases |es|
  {
    if es != [] {
      HappenKeepsInv(s, es[0]);
      RunKeepsInv(Happen(s, es[0]), es[1..]);
    }
  }

  // ----- No orphans -----

  /** In every run, with the user deleting the CR or editing any of it between any two calls, with any calls
      failing and passes cut off anywhere: a document is inserted or updated only while the stored CR
      carries the finalizer; each target holds a document exactly if one was inserted there and none deleted
      there; so when the CR is gone nothing is left behind if and only if a document was deleted wherever one
      had been inserted. A release says so for its own target, unless the pass found no service. */
  lemma NoOrphanedSubscriber(s: State, es: seq<Event>, e: Event)
    requires Fresh(s)
    ensures var t := Run(s, es);
      && (Happen(t, e).docs != t.docs && !e.Delete? ==> Carries(t.cr))
      && (forall x :: DocsAt(t.docs, x) != [] <==> x in t.inserted && x !in t.dropped)
      && (t.cr.None? && t.inserted != {} ==> t.release.Some?)
      && (t.release.Some? && t.release.value.why == Deleted ==> t.release.value.target in t.dropped)
      && (Nowhere(t.docs) <==> t.inserted <= t.dropped)
  {
    FreshInv(s);
    RunKeepsInv(s, es);
    var t := Run(s, es);
    assert Accounted(t);
    if Nowhere(t.docs) {
      forall x | x in t.inserted ensures x in t.dropped { assert DocsAt(t.docs, x) == []; }
    } else if t.inserted <= t.dropped {
      forall x | x in t.docs ensures t.docs[x] == [] { assert |DocsAt(t.docs, x)| == 0; }
    }
  }

  /** No edit changes the instance or the IMSI. */
  predicate KeepTarget(es: seq<Event>, t: Target)
  {
    forall e :: e in es && e.UserEdits? ==> TargetOf(e.user) == t
  }

  predicate Aims(s: State, t: Target)
  {
    && (s.cr.Some? ==> TargetOf(s.cr.value.user) == t)
    && (!s.worker.Idle? ==> TargetOf(s.worker.cr.user) == t)
    && s.inserted <= {t} && s.dropped <= {t} && (s.release.Some? ==> s.release.value.target == t)
  }

  lemma EventKeepsTarget(s: State, e: Event, t: Target)
    requires Aims(s, t) && (e.UserEdits? ==> TargetOf(e.user) == t)
    ensures Aims(Happen(s, e), t)
  {
  }

  lemma {:induction false} TargetKept(s: State, es: seq<Event>, t: Target)
    requires Aims(s, t) && KeepTarget(es, t)
    ensures Aims(Run(s, es), t)
    decreases |es|
  {
    if es != [] {
      assert es[0] in es;
      EventKeepsTarget(s, es[0], t);
      TargetKept(Happen(s, es[0]), es[1..], t);
    }
  }

  /** A CR that keeps its instance and IMSI leaves a document behind if and only if it inserted one and never
      deleted one; then the pass that released it found no service. */
  lemma FixedTargetLeavesNothing(s: State, es: seq<Event>)
    requires Fresh(s) && KeepTarget(es, TargetOf(s.cr.value.user)) && Run(s, es).cr.None?
    ensures var t := Run(s, es);
      && (!Nowhere(t.docs) <==> t.inserted != {} && t.dropped == {})
      && (!Nowhere(t.docs) ==> t.release == Some(Release(NoService, TargetOf(s.cr.value.user))))
  {
    var x := TargetOf(s.cr.value.user);
    TargetKept(s, es, x);
    NoOrphanedSubscriber(s, es, Restart);
    var t := Run(s, es);
    assert t.inserted != {} <==> x in t.inserted;
    assert t.dropped != {} <==> x in t.dropped;
  }

  // ----- What can go wrong -----

  /** The first pass over a new CR, and a later one that finds no document. */
  function MarkingPass(): seq<Event> {
    [Get(true), AddFinalizer(true), Lookup(true), Find(true), Insert(true)]
  }

  function InsertingPass(): seq<Event> {
    [Get(true), Lookup(true), Find(true), Insert(true)]
  }

  function DeletingPass(): seq<Event> {
    [Get(true), Lookup(true), Delete(true), RemoveFinalizer(true)]
  }

  lemma RunThree(s: State, a: Event, b: Event, c: Event)
    ensures Run(s, [a, b, c]) == Happen(Happen(Happen(s, a), b), c)
  {
    assert [a, b, c][1..] == [b, c] && [b, c][1..] == [c] && [c][1..] == [];
    var s1 := Happen(s, a);
    var s2 := Happen(s1, b);
    assert Run(s, [a, b, c]) == Run(s1, [b, c]) == Run(s2, [c]) == Run(Happen(s2, c), []);
  }

  lemma RunFour(s: State, a: Event, b: Event, c: Event, d: Event)
    ensures Run(s, [a, b, c, d]) == Happen(Happen(Happen(Happen(s, a), b), c), d)
  {
    assert [a, b, c, d][1..] == [b, c, d];
    RunThree(Happen(s, a), b, c, d);
  }

  lemma FirstCallMarks(s: State)
    requires Fresh(s) && s.cr.value.finalizers == []
    ensures var t, c := Happen(Happen(s, Get(true)), AddFinalizer(true)), s.cr.value;
      t == s.(cr := t.cr, worker := t.worker) && t.worker == Marked(t.cr.value)
      && t.cr == Some(c.(finalizers := [Finalizer()], version := c.version + 1))
  {
    assert [] + [Finalizer()] == [Finalizer()];
  }

  lemma MarkedInserts(s: State)
    requires s.worker.Marked? && NewDoc(s.driver, s.worker.cr.user).Some? && DocsAt(s.docs, TargetOf(s.worker.cr.user)) == []
    ensures var t, u := Happen(Happen(Happen(s, Lookup(true)), Find(true)), Insert(true)), s.worker.cr.user;
      t == s.(worker := Idle, docs := s.docs[TargetOf(u) := [NewDoc(s.driver, u).value]], inserted := s.inserted + {TargetOf(u)})
  {
    assert [] + [NewDoc(s.driver, s.worker.cr.user).value] == [NewDoc(s.driver, s.worker.cr.user).value];
  }

  lemma FirstPassInserts(s: State)
    requires Fresh(s) && s.cr.value.finalizers == [] && NewDoc(s.driver, s.cr.value.user).Some?
    ensures var t, u := Run(s, MarkingPass()), s.cr.value.user;
      && t.worker.Idle? && t.cr.Some? && t.cr.value.user == u && t.cr.value.finalizers == [Finalizer()]
      && !t.cr.value.deleting && t.driver == s.driver
      && t.docs == s.docs[TargetOf(u) := [NewDoc(s.driver, u).value]]
  {
    assert MarkingPass()[1..] == [AddFinalizer(true), Lookup(true), Find(true), Insert(true)];
    RunFour(Happen(s, Get(true)), AddFinalizer(true), Lookup(true), Find(true), Insert(true));
    FirstCallMarks(s);
    MarkedInserts(Happen(Happen(s, Get(true)), AddFinalizer(true)));
  }

  lemma LaterPassInserts(s: State)
    requires s.worker.Idle? && Carries(s.cr) && !s.cr.value.deleting && NewDoc(s.driver, s.cr.value.user).Some?
    requires DocsAt(s.docs, TargetOf(s.cr.value.user)) == []
    ensures var t, u := Run(s, InsertingPass()), s.cr.value.user;
      && t.worker.Idle? && t.cr == s.cr && t.release == s.release
      && t.docs == s.docs[TargetOf(u) := [NewDoc(s.driver, u).value]]
  {
    RunFour(s, Get(true), Lookup(true), Find(true), Insert(true));
    assert [] + [NewDoc(s.driver, s.cr.value.user).value] == [NewDoc(s.driver, s.cr.value.user).value];
  }

  lemma DeletionReleases(s: State)
    requires s.worker.Idle? && s.cr.Some? && s.cr.value.deleting && s.cr.value.finalizers == [Finalizer()]
    requires DocsAt(s.docs, TargetOf(s.cr.value.user)) != []
    ensures var t, x := Run(s, DeletingPass()), TargetOf(s.cr.value.user);
      && t.cr.None? && t.release == Some(Release(Deleted, x)) && t.docs == s.docs[x := DocsAt(s.docs, x)[1..]]
  {
    OnlyFinalizer();
    RunFour(s, Get(true), Lookup(true), Delete(true), RemoveFinalizer(true));
  }

  lemma OnlyFinalizer()
    ensures Without([Finalizer()], Finalizer()) == []
  {
    assert [Finalizer()][1..] == [];
  }

  /** A user that is moved to another instance, or given another IMSI, leaves its first document behind even
      if every call of every pass succeeds: the last pass deletes only the document of the new target. */
  lemma MovedUserOrphans(s: State, u: User)
    requires Fresh(s) && s.cr.value.finalizers == [] && TargetOf(u) != TargetOf(s.cr.value.user)
    requires NewDoc(s.driver, s.cr.value.user).Some? && NewDoc(s.driver, u).Some?
    ensures var t := Run(s, MarkingPass() + ([UserEdits(u)] + (InsertingPass() + ([UserDeletes] + DeletingPass()))));
      && t.cr.None? && t.release == Some(Release(Deleted, TargetOf(u)))
      && DocsAt(t.docs, TargetOf(s.cr.value.user)) == [NewDoc(s.driver, s.cr.value.user).value]
  {
    var rest3 := [UserDeletes] + DeletingPass();
    var rest2 := InsertingPass() + rest3;
    var rest1 := [UserEdits(u)] + rest2;
    FirstPassInserts(s);
    RunConcat(s, MarkingPass(), rest1);
    var s1 := Run(s, MarkingPass());
    assert rest1[1..] == rest2;
    var s2 := Happen(s1, UserEdits(u));
    LaterPassInserts(s2);
    RunConcat(s2, InsertingPass(), rest3);
    var s3 := Run(s2, InsertingPass());
    assert rest3[1..] == DeletingPass();
    DeletionReleases(Happen(s3, UserDeletes));
  }

  /** Whenever the CR is being deleted and its document is there: a single lookup that fails, for
      whatever reason, orphans the document. */
  lemma FailedLookupOrphans(s: State)
    requires s.worker.Idle? && s.cr.Some? && s.cr.value.deleting && s.cr.value.finalizers == [Finalizer()]
    ensures var t := Happen(Happen(Happen(s, Get(true)), Lookup(false)), RemoveFinalizer(true));
      t.cr.None? && t.docs == s.docs && t.release == Some(Release(NoService, TargetOf(s.cr.value.user)))
  {
    OnlyFinalizer();
  }

  predicate LookupsSucceed(es: seq<Event>)
  {
    forall e :: e in es ==> (e.Lookup? ==> e.found)
  }

  /** The CR is being deleted, its finalizer is there, and no document of it is. */
  predicate Stuck(s: State)
  {
    && Carries(s.cr) && s.cr.value.deleting && Nowhere(s.docs)
    && (s.worker == Idle || s.worker.Leaving? || s.worker.Dropping?)
    && (!s.worker.Idle? ==> s.worker.cr.deleting)
  }

  /** Deletion does not always complete: once the documents are gone while the finalizer is still there, the
      CR stays for as long as the MongoDB service is found, whatever else happens. */
  lemma {:induction false} DeletionStuck(s: State, es: seq<Event>)
    requires Stuck(s) && LookupsSucceed(es)
    ensures Stuck(Run(s, es)) && Run(s, es).cr.Some?
    decreases |es|
  {
    if es != [] {
      assert es[0] in es;
      DeletionStuck(Happen(s, es[0]), es[1..]);
    }
  }

  /** One way to get there: the only document is deleted, and the update that removes the finalizer fails,
      for example because the user has just edited the CR. */
  lemma FailedReleaseNeverCompletes(s: State, es: seq<Event>)
    requires Inv(s) && s.worker.Dropping? && s.inserted - s.dropped == {TargetOf(s.worker.cr.user)}
    requires LookupsSucceed(es)
    ensures Run(Happen(Happen(s, Delete(true)), RemoveFinalizer(false)), es).cr.Some?
  {
    var t := TargetOf(s.worker.cr.user);
    assert t in s.inserted - s.dropped;
    forall x | x != t ensures DocsAt(s.docs, x) == [] { assert x !in s.inserted - s.dropped; }
    assert |DocsAt(s.docs, t)| == 1;
    var u := Happen(Happen(s, Delete(true)), RemoveFinalizer(false));
    forall x | x in u.docs ensures u.docs[x] == [] { assert x != t ==> DocsAt(s.docs, x) == []; }
    DeletionStuck(u, es);
  }

  /** The calls of a pass that deletes; the service is found or not. */
  function DeletionCalls(found: bool): seq<Event>
  {
    if found then DeletingPass() else [Get(true), Lookup(false), RemoveFinalizer(true)]
  }

  /** What such a pass over the CR `c` leaves of it and of the documents. */
  predicate DeletionLeft(c: Cr, docs: Filed, found: bool, t: State)
  {
    var x := TargetOf(c.user);
    if found && DocsAt(docs, x) == [] then t.cr == Some(c) && t.docs == docs
    else t.cr == Stored(c, Without(c.finalizers, Finalizer()))
         && t.docs == if found then docs[x := DocsAt(docs, x)[1..]] else docs
  }

  lemma LeavingCalls(s: State)
    requires s.cr.Some? && s.worker == Leaving(s.cr.value)
    ensures DeletionLeft(s.cr.value, s.docs, true, Happen(Happen(Happen(s, Lookup(true)), Delete(true)), RemoveFinalizer(true)))
    ensures DeletionLeft(s.cr.value, s.docs, false, Happen(Happen(s, Lookup(false)), RemoveFinalizer(true)))
  {
  }

  lemma AfterDeletionCalls(s: State, found: bool)
    requires s.worker.Idle? && Carries(s.cr) && s.cr.value.deleting
    ensures DeletionLeft(s.cr.value, s.docs, found, Run(s, DeletionCalls(found)))
  {
    var s1 := Happen(s, Get(true));
    assert s1 == s.(worker := Leaving(s.cr.value));
    LeavingCalls(s1);
    RunThree(s, Get(true), Lookup(false), RemoveFinalizer(true));
    RunFour(s, Get(true), Lookup(true), Delete(true), RemoveFinalizer(true));
  }

  /** Without interference a deletion completes exactly when the document of the CR's present target is
      there or the lookup fails. */
  lemma DeletionCompletesIff(s: State, found: bool)
    requires s.worker.Idle? && s.cr.Some? && s.cr.value.deleting && s.cr.value.finalizers == [Finalizer()]
    ensures Run(s, DeletionCalls(found)).cr.None? <==> DocsAt(s.docs, TargetOf(s.cr.value.user)) != [] || !found
  {
    OnlyFinalizer();
    AfterDeletionCalls(s, found);
  }

  /** What must be stored before a pass over a CR that is being deleted, so that it leaves nothing: when the
      service is found, a document at the present target and at no other; when it is not, none at all. */
  ghost predicate CleanToRelease(s: State, found: bool)
    requires s.cr.Some?
  {
    var x := TargetOf(s.cr.value.user);
    if found then DocsAt(s.docs, x) != [] && forall y :: y != x ==> DocsAt(s.docs, y) == [] else Nowhere(s.docs)
  }

  /** From any point that a run can reach, with any documents that earlier edits left at other targets. */
  lemma DeletionLeavesNothingIff(s: State, found: bool)
    requires s.worker.Idle? && Carries(s.cr) && s.cr.value.deleting && Accounted(s)
    ensures var t := Run(s, DeletionCalls(found));
      !Carries(t.cr) && Nowhere(t.docs) <==> CleanToRelease(s, found)
  {
    var t, x := Run(s, DeletionCalls(found)), TargetOf(s.cr.value.user);
    AfterDeletionCalls(s, found);
    if found && DocsAt(s.docs, x) != [] {
      assert |DocsAt(s.docs, x)| == 1;
      forall y ensures DocsAt(t.docs, y) == if y == x then [] else DocsAt(s.docs, y) {}
      NowhereMeans(t.docs);
    }
  }

  /** The same at any point of any run from a new CR: whether the next pass, if nothing interferes with it,
      releases the CR and leaves nothing behind can be read off what is stored before it. */
  lemma DeletedUserLeavesNothingIff(s: State, es: seq<Event>, found: bool)
    requires Fresh(s) && var t := Run(s, es); t.worker.Idle? && Carries(t.cr) && t.cr.value.deleting
    ensures var u := Run(s, es + DeletionCalls(found));
      !Carries(u.cr) && Nowhere(u.docs) <==> CleanToRelease(Run(s, es), found)
  {
    FreshInv(s);
    RunKeepsInv(s, es);
    RunConcat(s, es, DeletionCalls(found));
    DeletionLeavesNothingIff(Run(s, es), found);
  }

  lemma NowhereMeans(f: Filed)
    ensures Nowhere(f) <==> forall y :: DocsAt(f, y) == []
  {
    if forall y :: DocsAt(f, y) == [] {
      forall y | y in f ensures f[y] == [] { assert DocsAt(f, y) == []; }
    }
  }

  // ----- The namespace of the instance is ignored -----

  /** `x` with another namespace in its reference to the instance, wherever a user's fields occur. */
  function Renamed(u: User, ns: string): User
  {
    u.(namespace := ns)
  }

  function RenamedCr(c: Cr, ns: string): Cr
  {
    c.(user := Renamed(c.user, ns))
  }

  function RenamedWorker(x: Worker, ns: string): Worker
  {
    if x.Idle? then x else x.(cr := RenamedCr(x.cr, ns))
  }

  function RenamedState(s: State, ns: string): State
  {
    s.(cr := if s.cr.Some? then Some(RenamedCr(s.cr.value, ns)) else None, worker := RenamedWorker(s.worker, ns))
  }

  function RenamedEvents(es: seq<Event>, ns: string): seq<Event>
  {
    if es == [] then []
    else [RenamedEvent(es[0], ns)] + RenamedEvents(es[1..], ns)
  }

  function RenamedEvent(e: Event, ns: string): Event
  {
    if e.UserEdits? then UserEdits(Renamed(e.user, ns)) else e
  }

  lemma NamespaceUnread(driver: Driver, u: User, ns: string, d: Doc)
    ensures TargetOf(Renamed(u, ns)) == TargetOf(u) && NewDoc(driver, Renamed(u, ns)) == NewDoc(driver, u)
    ensures HasDrift(Renamed(u, ns), d) == HasDrift(u, d) && UpdatedDoc(driver, Renamed(u, ns), d) == UpdatedDoc(driver, u, d)
  {
  }

  lemma NamespaceIgnoredByUpdate(s: State, ok: bool, ns: string)
    ensures Happen(RenamedState(s, ns), Update(ok)) == RenamedState(Happen(s, Update(ok)), ns)
  {
    if s.worker.Updating? {
      var u := s.worker.cr.user;
      var mine := DocsAt(s.docs, TargetOf(u));
      if mine != [] { NamespaceUnread(s.driver, u, ns, mine[0]); }
    }
  }

  lemma NamespaceIgnoredByWrite(s: State, e: Event, ns: string)
    requires WritesDoc(e)
    ensures Happen(RenamedState(s, ns), e) == RenamedState(Happen(s, e), ns)
  {
    if e.Update? { NamespaceIgnoredByUpdate(s, e.ok, ns); }
  }

  lemma NamespaceIgnoredByUser(s: State, e: Event, ns: string)
    requires e.UserDeletes? || e.UserEdits?
    ensures Happen(RenamedState(s, ns), RenamedEvent(e, ns)) == RenamedState(Happen(s, e), ns)
  {
  }

  lemma NamespaceIgnoredByMark(s: State, e: Event, ns: string)
    requires e.AddFinalizer? || e.RemoveFinalizer?
    ensures Happen(RenamedState(s, ns), e) == RenamedState(Happen(s, e), ns)
  {
  }

  lemma NamespaceIgnoredByRead(s: State, e: Event, ns: string)
    requires e.Restart? || e.Lookup?
    ensures Happen(RenamedState(s, ns), e) == RenamedState(Happen(s, e), ns)
  {
  }

  lemma NamespaceIgnoredByGet(s: State, ok: bool, ns: string)
    ensures Happen(RenamedState(s, ns), Get(ok)) == RenamedState(Happen(s, Get(ok)), ns)
  {
  }

  lemma NamespaceIgnoredByFind(s: State, ok: bool, ns: string)
    ensures Happen(RenamedState(s, ns), Find(ok)) == RenamedState(Happen(s, Find(ok)), ns)
  {
    if s.worker.Located? {
      var u := s.worker.cr.user;
      var mine := DocsAt(s.docs, TargetOf(u));
      if mine != [] { NamespaceUnread(s.driver, u, ns, mine[0]); }
    }
  }

  lemma NamespaceIgnoredByEvent(s: State, e: Event, ns: string)
    ensures Happen(RenamedState(s, ns), RenamedEvent(e, ns)) == RenamedState(Happen(s, e), ns)
  {
    match e
    case UserDeletes | UserEdits(_) => NamespaceIgnoredByUser(s, e, ns);
    case AddFinalizer(_) | RemoveFinalizer(_) => NamespaceIgnoredByMark(s, e, ns);
    case Restart | Lookup(_) => NamespaceIgnoredByRead(s, e, ns);
    case Get(ok) => NamespaceIgnoredByGet(s, ok, ns);
    case Find(ok) => NamespaceIgnoredByFind(s, ok, ns);
    case _ => NamespaceIgnoredByWrite(s, e, ns);
  }

  /** Whatever namespaces the users name, and however they edit them, the same documents are written and
      deleted, and the CR goes through the same states. */
  lemma {:induction false} NamespaceIgnored(s: State, es: seq<Event>, ns: string)
    ensures Run(RenamedState(s, ns), RenamedEvents(es, ns)) == RenamedState(Run(s, es), ns)
    decreases |es|
  {
    if es != [] {
      NamespaceIgnoredByEvent(s, es[0], ns);
      NamespaceIgnored(Happen(s, es[0]), es[1..], ns);
    }
  }
}
