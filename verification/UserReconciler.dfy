/** The Open5GSUser reconciler, call by call: it makes the calls of the protocol, all of them and no other. */
module UserReconciler {
  import opened Text
  import opened Subscribers
  import opened UserProtocol
  import opened UserPass

  /** Between the traces `t0` and `t1` the recorded events lead from `s0` to `s1`, in order. */
  ghost predicate Led(s0: State, t0: seq<Event>, s1: State, t1: seq<Event>)
  {
    t0 <= t1 && Orderly(s0, t1[|t0|..]) && s1 == Run(s0, t1[|t0|..])
  }

  lemma LedOn(s0: State, t0: seq<Event>, s1: State, t1: seq<Event>, s2: State, t2: seq<Event>)
    requires Led(s0, t0, s1, t1) && Led(s1, t1, s2, t2)
    ensures Led(s0, t0, s2, t2)
  {
    assert t2[|t0|..] == t1[|t0|..] + t2[|t1|..];
    RunConcat(s0, t1[|t0|..], t2[|t1|..]);
    OrderlyConcat(s0, t1[|t0|..], t2[|t1|..]);
  }

  /** One more event. */
  lemma LedBy(s0: State, t0: seq<Event>, s1: State, t1: seq<Event>, e: Event)
    requires Led(s0, t0, s1, t1) && InOrder(s1, e)
    ensures Led(s0, t0, Happen(s1, e), t1 + [e])
  {
    var t2 := t1 + [e];
    assert t2[|t1|..] == [e] && [e][1..] == [];
    assert Led(s1, t1, Happen(s1, e), t2);
    LedOn(s0, t0, s1, t1, Happen(s1, e), t2);
  }

  lemma LedNowhere(s: State, t: seq<Event>)
    ensures Led(s, t, s, t)
  {
    assert t[|t|..] == [];
  }

  /** The API server and MongoDB as one worker sees them. Before every call the user may have edited or
      deleted the CR; every call may fail. `trace` records what happened. */
  class Backend {
    var s: State
    ghost var trace: seq<Event>
    var clock: nat
    const outage: nat -> bool
    const meanwhile: nat -> seq<Event>

    constructor (s: State, outage: nat -> bool, meanwhile: nat -> seq<Event>)
      ensures this.s == s && trace == []
    {
      this.s, this.outage, this.meanwhile := s, outage, meanwhile;
      trace, clock := [], 0;
    }

    /** From the state `s0` after `t0`, the recorded events lead to the present state. */
    ghost predicate Follows(s0: State, t0: seq<Event>)
      reads this
    {
      Led(s0, t0, s, trace)
    }

    /** One event. */
    method Apply(e: Event)
      modifies this`s, this`trace
      ensures s == Happen(old(s), e) && trace == old(trace) + [e]
    {
      s := Happen(s, e);
      trace := trace + [e];
    }

    /** From now on no call fails, and the user leaves the CR alone. */
    ghost predicate Calm()
      reads this
    {
      forall n :: n >= clock ==> !outage(n) && meanwhile(n) == []
    }

    /** The user's doings up to the next call; they leave the worker where it is. */
    method Meanwhile() returns (failed: bool)
      modifies this
      ensures s.worker == old(s.worker) && s.docs == old(s.docs) && s.driver == old(s.driver)
      ensures Follows(old(s), old(trace))
      ensures old(Calm()) ==> Calm() && !failed && s == old(s)
    {
      var es := meanwhile(clock);
      failed := outage(clock);
      clock := clock + 1;
      ghost var s0, t0 := s, trace;
      LedNowhere(s0, t0);
      for i := 0 to |es|
        invariant s.worker == s0.worker && s.docs == s0.docs && s.driver == s0.driver
        invariant Follows(s0, t0) && clock == old(clock) + 1 && (|es| == 0 ==> s == s0)
      {
        if es[i].UserDeletes? || es[i].UserEdits? {
          LedBy(s0, t0, s, trace, es[i]);
          Apply(es[i]);
        }
      }
    }

    /** A call: the user's doings, then the worker's event, in the state `m` that they led to. */
    method Do(e: Event, fail: Event) returns (ok: bool, ghost m: State)
      requires fail == Failed(e) && (if e.Get? then s.worker.Idle? else Due(s) == Some(e))
      modifies this
      ensures Follows(old(s), old(trace))
      ensures m.worker == old(s.worker) && m.docs == old(s.docs) && m.driver == old(s.driver)
      ensures s == Happen(m, if ok then e else fail)
      ensures old(Calm()) ==> Calm() && ok && s == Happen(old(s), e)
    {
      ghost var s0, t0 := s, trace;
      var failed := Meanwhile();
      m := s;
      ok := !failed;
      LedBy(s0, t0, m, trace, if ok then e else fail);
      if ok {
        Apply(e);
      } else {
        Apply(fail);
      }
    }

    method ReadCr() returns (ok: bool, found: Option<Cr>)
      requires s.worker == Idle
      modifies this
      ensures Follows(old(s), old(trace)) && s.docs == old(s.docs) && s.driver == old(s.driver)
      ensures s.worker == if ok then AfterGet(found) else Idle
      ensures old(Calm()) ==> Calm() && ok && found == old(s.cr) && s == Happen(old(s), Get(true))
    {
      ghost var m;
      ok, m := Do(Get(true), Get(false));
      found := s.cr;
    }

    method PersistMark(finalizers: seq<string>) returns (ok: bool)
      requires s.worker.Unmarked? && finalizers == s.worker.cr.finalizers + [Finalizer()]
      modifies this
      ensures Follows(old(s), old(trace)) && s.docs == old(s.docs)
      ensures if ok then s.worker.Marked? && s.worker.cr.user == old(s.worker.cr.user) else s.worker == Idle
      ensures ok ==> s.worker.cr.finalizers == finalizers
      ensures old(Calm()) ==> Calm() && s == Happen(old(s), AddFinalizer(true))
    {
      ghost var m;
      ok, m := Do(AddFinalizer(true), AddFinalizer(false));
      ok := s.worker.Marked?;
    }

    /** GetServiceIp; any error counts as "not found". */
    method LookupService() returns (found: bool)
      requires s.worker.Marked? || s.worker.Leaving?
      modifies this
      ensures Follows(old(s), old(trace)) && s.docs == old(s.docs) && s.driver == old(s.driver)
      ensures old(s.worker).Marked? ==> s.worker == if found then Located(old(s.worker.cr)) else Idle
      ensures old(s.worker).Leaving? ==>
        s.worker == if found then Dropping(old(s.worker.cr)) else Releasing(old(s.worker.cr), NoService)
      ensures old(Calm()) ==> Calm() && found && s == Happen(old(s), Lookup(true))
    {
      ghost var m;
      found, m := Do(Lookup(true), Lookup(false));
    }

    method FindOne() returns (ok: bool, doc: Option<Doc>)
      requires s.worker.Located?
      modifies this
      ensures Follows(old(s), old(trace)) && s.driver == old(s.driver) && s.docs == old(s.docs)
      ensures !ok ==> s.worker == Idle
      ensures ok ==>
        var c := old(s.worker.cr);
        var mine := DocsAt(s.docs, TargetOf(c.user));
        && doc == (if mine == [] then None else Some(mine[0]))
        && s.worker == (if doc.None? then Inserting(c) else if HasDrift(c.user, doc.value) then Updating(c) else Idle)
      ensures old(Calm()) ==> Calm() && ok && s == Happen(old(s), Find(true))
    {
      ghost var m;
      var c := s.worker.cr;
      ok, m := Do(Find(true), Find(false));
      var mine := DocsAt(s.docs, TargetOf(c.user));
      doc := if mine == [] then None else Some(mine[0]);
    }

    method InsertOne(d: Doc) returns (ok: bool)
      requires s.worker.Inserting? && NewDoc(s.driver, s.worker.cr.user) == Some(d)
      modifies this
      ensures Follows(old(s), old(trace)) && s.worker == Idle
      ensures var t := TargetOf(old(s.worker.cr.user));
        s.docs == if ok then old(s.docs)[t := DocsAt(old(s.docs), t) + [d]] else old(s.docs)
      ensures old(Calm()) ==> Calm() && s == Happen(old(s), Insert(true))
    {
      ghost var m;
      ok, m := Do(Insert(true), Insert(false));
    }

    method UpdateOne(d: Doc) returns (ok: bool)
      requires s.worker.Updating? && DocsAt(s.docs, TargetOf(s.worker.cr.user)) != []
      requires UpdatedDoc(s.driver, s.worker.cr.user, DocsAt(s.docs, TargetOf(s.worker.cr.user))[0]) == Some(d)
      modifies this
      ensures Follows(old(s), old(trace)) && s.worker == Idle
      ensures var t := TargetOf(old(s.worker.cr.user));
        s.docs == if ok then old(s.docs)[t := DocsAt(old(s.docs), t)[0 := d]] else old(s.docs)
      ensures old(Calm()) ==> Calm() && s == Happen(old(s), Update(true))
    {
      ghost var m;
      ok, m := Do(Update(true), Update(false));
    }

    /** DeleteOne; deleting nothing is an error. */
    method DeleteOne() returns (ok: bool)
      requires s.worker.Dropping?
      modifies this
      ensures Follows(old(s), old(trace))
      ensures s.worker == if ok then Releasing(old(s.worker.cr), Deleted) else Idle
      ensures var t := TargetOf(old(s.worker.cr.user));
        && (ok ==> DocsAt(old(s.docs), t) != [])
        && s.docs == if ok then old(s.docs)[t := DocsAt(old(s.docs), t)[1..]] else old(s.docs)
      ensures old(Calm()) ==> Calm() && s == Happen(old(s), Delete(true))
    {
      ghost var m;
      ok, m := Do(Delete(true), Delete(false));
      ok := s.worker.Releasing?;
    }

    method PersistRelease(finalizers: seq<string>)
      requires s.worker.Releasing? && finalizers == Without(s.worker.cr.finalizers, Finalizer())
      modifies this
      ensures Follows(old(s), old(trace)) && s.worker == Idle
      ensures old(Calm()) ==> Calm() && s == Happen(old(s), RemoveFinalizer(true))
    {
      var ok;
      ghost var m;
      ok, m := Do(RemoveFinalizer(true), RemoveFinalizer(false));
    }

    /** The pass returns, with or without an error. */
    method EndPass()
      requires Due(s).None?
      modifies this
      ensures Follows(old(s), old(trace)) && s == Happen(old(s), Restart)
      ensures old(Calm()) ==> Calm()
    {
      LedNowhere(s, trace);
      LedBy(s, trace, s, trace, Restart);
      Apply(Restart);
    }
  }

  /** The documents after a successful pass for a user are those of `AfterPass`, under the user's target;
      a pass that fails leaves all documents as they were. */
  ghost predicate Reconciled(driver: Driver, before: Filed, after: Filed, user: User, ok: bool)
  {
    var t := TargetOf(user);
    && (forall x :: x != t ==> DocsAt(after, x) == DocsAt(before, x))
    && (ok ==> AfterPass(driver, DocsAt(before, t), user) == Some(DocsAt(after, t)))
    && (!ok ==> after == before)
  }

  /** What a method leaves when it has made all the calls that were due; without failures and interference it
      is the rest of an undisturbed pass. */
  twostate predicate CarriedOn(b: Backend)
    reads b
  {
    Due(b.s).None? && (old(b.Calm()) ==> b.Calm() && b.s == Finish(old(b.s)))
  }

  /** addSubscriber */
  method AddSubscriber(b: Backend, user: User) returns (ok: bool)
    requires b.s.worker.Inserting? && b.s.worker.cr.user == user && DocsAt(b.s.docs, TargetOf(user)) == []
    modifies b
    ensures b.Follows(old(b.s), old(b.trace)) && CarriedOn(b)
    ensures Reconciled(old(b.s.driver), old(b.s.docs), b.s.docs, user, ok)
  {
    LedNowhere(b.s, b.trace);
    var d := NewDoc(b.s.driver, user);
    ok := false;
    if d.Some? {
      assert [] + [d.value] == [d.value];
      ok := b.InsertOne(d.value);
    }
  }

  /** updateSubscriber, of the document that was found. */
  method UpdateSubscriber(b: Backend, user: User, doc: Doc) returns (ok: bool)
    requires b.s.worker.Updating? && b.s.worker.cr.user == user && WellFiled(b.s.docs) && HasDrift(user, doc)
    requires var mine := DocsAt(b.s.docs, TargetOf(user)); mine != [] && mine[0] == doc
    modifies b
    ensures b.Follows(old(b.s), old(b.trace)) && CarriedOn(b)
    ensures Reconciled(old(b.s.driver), old(b.s.docs), b.s.docs, user, ok)
  {
    LedNowhere(b.s, b.trace);
    FirstOfFiled(b.s.docs, TargetOf(user));
    var d := UpdatedDoc(b.s.driver, user, doc);
    ok := false;
    if d.Some? {
      ok := b.UpdateOne(d.value);
    }
  }

  /** addOrUpdateSubscriber, with the user of the CR editing and deleting it between any two calls. */
  method AddOrUpdateSubscriber(b: Backend, user: User) returns (ok: bool)
    requires b.s.worker.Located? && b.s.worker.cr.user == user && WellFiled(b.s.docs)
    modifies b
    ensures b.Follows(old(b.s), old(b.trace)) && CarriedOn(b)
    ensures Reconciled(old(b.s.driver), old(b.s.docs), b.s.docs, user, ok)
  {
    ghost var s0, t0 := b.s, b.trace;
    FirstOfFiled(b.s.docs, TargetOf(user));
    var doc;
    ok, doc := b.FindOne();
    ghost var s1, t1 := b.s, b.trace;
    LedNowhere(s1, t1);
    if ok && doc.None? {
      ok := AddSubscriber(b, user);
    } else if ok && HasDrift(user, doc.value) {
      ok := UpdateSubscriber(b, user, doc.value);
    }
    LedOn(s0, t0, s1, t1, b.s, b.trace);
  }

  /** reconcileSubscriber: without a service nothing is done, and that is no error. */
  method ReconcileSubscriber(b: Backend, user: User) returns (ok: bool, ghost found: bool)
    requires b.s.worker.Marked? && b.s.worker.cr.user == user && WellFiled(b.s.docs)
    modifies b
    ensures b.Follows(old(b.s), old(b.trace)) && CarriedOn(b)
    ensures if found then Reconciled(old(b.s.driver), old(b.s.docs), b.s.docs, user, ok) else ok && b.s.docs == old(b.s.docs)
  {
    ghost var s0, t0 := b.s, b.trace;
    var there := b.LookupService();
    found := there;
    ghost var s1, t1 := b.s, b.trace;
    ok := true;
    if there {
      ok := AddOrUpdateSubscriber(b, user);
      LedOn(s0, t0, s1, t1, b.s, b.trace);
    }
  }

  /** deleteSubscriber */
  method DeleteSubscriber(b: Backend) returns (ok: bool)
    requires b.s.worker.Leaving?
    modifies b
    ensures b.Follows(old(b.s), old(b.trace))
    ensures if ok then b.s.worker.Releasing? && b.s.worker.cr == old(b.s.worker.cr) else b.s.worker == Idle
    ensures old(b.Calm()) ==> b.Calm() && Finish(b.s) == Finish(old(b.s))
  {
    ghost var s0, t0 := b.s, b.trace;
    var found := b.LookupService();
    if !found {
      return true;
    }
    ghost var s1, t1 := b.s, b.trace;
    ok := b.DeleteOne();
    LedOn(s0, t0, s1, t1, b.s, b.trace);
  }

  /** The branch for a CR that is not being deleted. */
  method MarkAndReconcile(b: Backend, cr: Cr, marked: bool)
    requires (b.s.worker == if marked then Marked(cr) else Unmarked(cr)) && WellFiled(b.s.docs)
    modifies b
    ensures b.Follows(old(b.s), old(b.trace)) && CarriedOn(b)
  {
    ghost var s0, t0 := b.s, b.trace;
    LedNowhere(s0, t0);
    if !marked {
      var ok := b.PersistMark(cr.finalizers + [Finalizer()]);
      if !ok {
        return;
      }
    }
    ghost var s1, t1 := b.s, b.trace;
    var done;
    ghost var found;
    done, found := ReconcileSubscriber(b, cr.user);
    LedOn(s0, t0, s1, t1, b.s, b.trace);
  }

  /** The branch for a CR that is being deleted and carries the finalizer. */
  method DeleteAndRelease(b: Backend, cr: Cr)
    requires b.s.worker == Leaving(cr)
    modifies b
    ensures b.Follows(old(b.s), old(b.trace)) && CarriedOn(b)
  {
    ghost var s0, t0 := b.s, b.trace;
    var ok := DeleteSubscriber(b);
    ghost var s1, t1 := b.s, b.trace;
    if ok {
      var rest := RemoveString(cr.finalizers, Finalizer());
      b.PersistRelease(rest);
      LedOn(s0, t0, s1, t1, b.s, b.trace);
    }
  }

  /** What an undisturbed pass achieves. A CR that is not being deleted carries the finalizer afterwards, and a
      complete user has exactly one document, which holds what the spec says unless the drift check was
      blind to a difference; a CR being deleted whose document is there loses it and the finalizer. */
  ghost predicate Achieved(s: State, t: State)
  {
    s.cr.Some? ==>
      var u, x := s.cr.value.user, TargetOf(s.cr.value.user);
      var before, after := DocsAt(s.docs, x), DocsAt(t.docs, x);
      && (!s.cr.value.deleting ==> Served(s, t))
      && (!s.cr.value.deleting && Complete(u) ==>
            && |after| == 1 && !HasDrift(u, after[0])
            && (HoldsSpec(u, after[0]) <==> (before != [] && DiffersUnseen(u, before[0]) ==> HasDrift(u, before[0]))))
      && (s.cr.value.deleting && Carries(s.cr) && before != [] ==> LetGo(s, t))
  }

  lemma UndisturbedAchieves(s: State)
    requires s.worker == Idle && Inv(s)
    ensures Achieved(s, Undisturbed(s))
  {
    if s.cr.Some? && !s.cr.value.deleting {
      UndisturbedServes(s);
      if Complete(s.cr.value.user) { UndisturbedSubscribes(s); }
    } else if Carries(s.cr) && DocsAt(s.docs, TargetOf(s.cr.value.user)) != [] {
      UndisturbedLetsGo(s);
    }
  }

  /** Reconcile: every pass is a run of the protocol, so what holds of all runs holds of all passes. It makes
      the calls that are due, in order, and does not end while one is; so without failures and interference it
      achieves what it is for. */
  method ReconcileUser(b: Backend)
    requires b.s.worker == Idle && Inv(b.s)
    modifies b
    ensures b.Follows(old(b.s), old(b.trace)) && b.s.worker == Idle && Inv(b.s)
    ensures old(b.Calm()) ==> b.Calm() && b.s == Undisturbed(old(b.s)) && Achieved(old(b.s), b.s)
  {
    ghost var s0, t0 := b.s, b.trace;
    var ok, found := b.ReadCr();
    ghost var s1, t1 := b.s, b.trace;
    LedNowhere(s1, t1);
    if ok && found.Some? {
      var cr := found.value;
      var marked := ContainsString(cr.finalizers, Finalizer());
      if !cr.deleting {
        MarkAndReconcile(b, cr, marked);
      } else if marked {
        DeleteAndRelease(b, cr);
      }
    }
    ghost var s2, t2 := b.s, b.trace;
    LedOn(s0, t0, s1, t1, s2, t2);
    b.EndPass();
    LedOn(s0, t0, s2, t2, b.s, b.trace);
    RunKeepsInv(s0, b.trace[|t0|..]);
    UndisturbedAchieves(s0);
  }

  /** Any number of passes over a fresh CR: nothing is left behind exactly if a document was deleted wherever
      one had been inserted; and if the user kept the instance and the IMSI, something is left behind only
      if the pass that released the CR found no service. */
  method ReconcileForever(b: Backend, passes: nat)
    requires Fresh(b.s)
    modifies b
    ensures b.Follows(old(b.s), old(b.trace))
    ensures Nowhere(b.s.docs) <==> b.s.inserted <= b.s.dropped
    ensures b.s.release.Some? && b.s.release.value.why == Deleted ==> b.s.release.value.target in b.s.dropped
    ensures var t := TargetOf(old(b.s).cr.value.user);
      KeepTarget(b.trace[|old(b.trace)|..], t) && b.s.cr.None? && !Nowhere(b.s.docs) ==>
        b.s.release == Some(Release(NoService, t))
  {
    ghost var s0, t0 := b.s, b.trace;
    LedNowhere(s0, t0);
    FreshInv(s0);
    for i := 0 to passes
      invariant b.s.worker == Idle && Inv(b.s) && b.Follows(s0, t0)
    {
      ghost var s1, t1 := b.s, b.trace;
      ReconcileUser(b);
      LedOn(s0, t0, s1, t1, b.s, b.trace);
    }
    NoOrphanedSubscriber(s0, b.trace[|t0|..], Restart);
    if KeepTarget(b.trace[|t0|..], TargetOf(s0.cr.value.user)) && b.s.cr.None? {
      FixedTargetLeavesNothing(s0, b.trace[|t0|..]);
    }
  }
}
