/** One pass of the Open5GSUser reconciler: which calls it makes, and what it achieves when nobody disturbs it. */
module UserPass {
  import opened Text
  import opened Subscribers
  import opened UserProtocol

  // ----- The calls of a pass -----

  /** The call that a pass makes next, with the answer that it hopes for. None is due when the pass is over, or
      when the SST that it would have to write cannot be read. */
  function Due(s: State): Option<Event>
  {
    match s.worker
    case Idle => None
    case Unmarked(_) => Some(AddFinalizer(true))
    case Marked(_) => Some(Lookup(true))
    case Leaving(_) => Some(Lookup(true))
    case Located(_) => Some(Find(true))
    case Inserting(c) => if NewDoc(s.driver, c.user).Some? then Some(Insert(true)) else None
    case Updating(c) =>
      var mine := DocsAt(s.docs, TargetOf(c.user));
      if mine != [] && UpdatedDoc(s.driver, c.user, mine[0]).Some? then Some(Update(true)) else None
    case Dropping(_) => Some(Delete(true))
    case Releasing(_, _) => Some(RemoveFinalizer(true))
  }

  function Failed(e: Event): Event
  {
    match e
    case Get(_) => Get(false)
    case AddFinalizer(_) => AddFinalizer(false)
    case Lookup(_) => Lookup(false)
    case Find(_) => Find(false)
    case Insert(_) => Insert(false)
    case Update(_) => Update(false)
    case Delete(_) => Delete(false)
    case RemoveFinalizer(_) => RemoveFinalizer(false)
    case _ => e
  }

  /** An event that may happen while passes run one after the other: the user's doings at any time, the first
      call of a pass when none is running, the call that is due, well answered or failed, and the end of a
      pass when none is due any more. */
  predicate InOrder(s: State, e: Event)
  {
    || e.UserDeletes? || e.UserEdits?
    || (e.Get? && s.worker.Idle?)
    || (Due(s).Some? && (e == Due(s).value || e == Failed(Due(s).value)))
    || (e.Restart? && Due(s).None?)
  }

  /** No call is made out of order, and no pass ends while a call is due. */
  predicate Orderly(s: State, es: seq<Event>)
    decreases |es|
  {
    es == [] || (InOrder(s, es[0]) && Orderly(Happen(s, es[0]), es[1..]))
  }

  lemma {:induction false} OrderlyConcat(s: State, a: seq<Event>, b: seq<Event>)
    requires Orderly(s, a) && Orderly(Run(s, a), b)
    ensures Orderly(s, a + b)
    decreases |a|
  {
    if a == [] {
      assert a + b == b;
    } else {
      assert (a + b)[1..] == a[1..] + b;
      OrderlyConcat(Happen(s, a[0]), a[1..], b);
    }
  }

  function CallsLeft(w: Worker): nat
  {
    match w
    case Idle => 0
    case Unmarked(_) => 5
    case Marked(_) => 4
    case Located(_) => 3
    case Inserting(_) => 2
    case Updating(_) => 2
    case Leaving(_) => 4
    case Dropping(_) => 3
    case Releasing(_, _) => 2
  }

  /** The rest of a pass whose calls all succeed and which nobody disturbs. */
  function Finish(s: State): State
    decreases CallsLeft(s.worker)
  {
    if Due(s).None? then s else Finish(Happen(s, Due(s).value))
  }

  /** Such a pass. */
  function Undisturbed(s: State): State
  {
    Happen(Finish(Happen(s, Get(true))), Restart)
  }

  /** What one pass of `Subscribers` makes of the documents of a target; an error changes nothing. */
  function DocsAfter(driver: Driver, mine: Docs, u: User): Docs
  {
    var after := AfterPass(driver, mine, u);
    if after.Some? then after.value else mine
  }

  lemma FirstOfFiled(f: Filed, t: Target)
    requires WellFiled(f)
    ensures First(DocsAt(f, t), t.imsi) == if DocsAt(f, t) == [] then None else Some(0)
  {
    if DocsAt(f, t) != [] { assert DocsAt(f, t)[0].imsi == t.imsi; }
  }

  /** Nothing but the documents of one target differs, and those are `mine`. */
  ghost predicate OnlyDocs(s: State, t: State, x: Target, mine: Docs)
  {
    t.cr == s.cr && t.release == s.release && DocsAt(t.docs, x) == mine && forall y :: y != x ==> DocsAt(t.docs, y) == DocsAt(s.docs, y)
  }

  lemma DocsAfterFiled(driver: Driver, f: Filed, u: User)
    requires WellFiled(f)
    ensures var mine := DocsAt(f, TargetOf(u));
      DocsAfter(driver, mine, u)
      == if mine == [] then (if NewDoc(driver, u).Some? then [NewDoc(driver, u).value] else [])
         else if HasDrift(u, mine[0]) && UpdatedDoc(driver, u, mine[0]).Some? then mine[0 := UpdatedDoc(driver, u, mine[0]).value]
         else mine
  {
    FirstOfFiled(f, TargetOf(u));
  }

  lemma FinishWrite(s: State)
    requires s.worker.Inserting? || s.worker.Updating?
    ensures Finish(s) == if Due(s).Some? then Happen(s, Due(s).value) else s
  {
  }

  lemma FinishInserting(s: State)
    requires s.worker.Inserting? && WellFiled(s.docs) && DocsAt(s.docs, TargetOf(s.worker.cr.user)) == []
    ensures var u := s.worker.cr.user; var x := TargetOf(u);
      OnlyDocs(s, Finish(s), x, DocsAfter(s.driver, [], u))
  {
    DocsAfterFiled(s.driver, s.docs, s.worker.cr.user);
    FinishWrite(s);
  }

  lemma FinishUpdating(s: State)
    requires s.worker.Updating? && WellFiled(s.docs)
    requires var u := s.worker.cr.user; var mine := DocsAt(s.docs, TargetOf(u)); mine != [] && HasDrift(u, mine[0])
    ensures var u := s.worker.cr.user; var x := TargetOf(u);
      OnlyDocs(s, Finish(s), x, DocsAfter(s.driver, DocsAt(s.docs, x), u))
  {
    DocsAfterFiled(s.driver, s.docs, s.worker.cr.user);
    FinishWrite(s);
  }

  lemma FinishLocated(s: State)
    requires s.worker.Located? && WellFiled(s.docs)
    ensures var u := s.worker.cr.user; var x := TargetOf(u);
      OnlyDocs(s, Finish(s), x, DocsAfter(s.driver, DocsAt(s.docs, x), u))
  {
    var t := Happen(s, Find(true));
    if t.worker.Inserting? {
      FinishInserting(t);
    } else if t.worker.Updating? {
      FinishUpdating(t);
    } else {
      DocsAfterFiled(s.driver, s.docs, s.worker.cr.user);
    }
  }

  lemma FinishMarked(s: State)
    requires s.worker.Marked? && WellFiled(s.docs)
    ensures var u := s.worker.cr.user; var x := TargetOf(u);
      OnlyDocs(s, Finish(s), x, DocsAfter(s.driver, DocsAt(s.docs, x), u))
  {
    FinishLocated(Happen(s, Lookup(true)));
  }

  /** A CR that is not being deleted, before and after an undisturbed pass: it carries the finalizer, and the
      documents of its target are those of one pass over them. */
  ghost predicate Served(s: State, t: State)
    requires s.cr.Some?
  {
    var c, x := s.cr.value, TargetOf(s.cr.value.user);
    && t.cr.Some? && t.cr.value.user == c.user && !t.cr.value.deleting
    && Finalizer() in t.cr.value.finalizers && (forall f :: f in c.finalizers ==> f in t.cr.value.finalizers)
    && DocsAt(t.docs, x) == DocsAfter(s.driver, DocsAt(s.docs, x), c.user)
    && forall y :: y != x ==> DocsAt(t.docs, y) == DocsAt(s.docs, y)
  }

  lemma UndisturbedServes(s: State)
    requires s.worker.Idle? && s.cr.Some? && !s.cr.value.deleting && WellFiled(s.docs)
    ensures Served(s, Undisturbed(s)) && Undisturbed(s).worker.Idle?
  {
    var s1 := Happen(s, Get(true));
    if s1.worker.Marked? {
      FinishMarked(s1);
    } else {
      FinishMarked(Happen(s1, AddFinalizer(true)));
    }
  }

  /** A document that holds what the user's spec says, field by field. */
  predicate HoldsSpec(u: User, d: Doc)
  {
    && d.imsi == u.imsi && d.k == Str(u.key) && d.opc == Str(u.opc) && d.slice.apn == Str(u.apn)
    && d.slice.sd == Str(u.sd) && d.slice.sst.Number? && Some(d.slice.sst.n) == Atoi(u.sst)
  }

  /** For a user with SST, SD and APN: after an undisturbed pass exactly one document lies at the target. It
      holds what the spec says, unless one was there before whose differences the drift check does not see. */
  lemma UndisturbedSubscribes(s: State)
    requires s.worker.Idle? && s.cr.Some? && !s.cr.value.deleting && WellFiled(s.docs) && Accounted(s)
    requires Complete(s.cr.value.user)
    ensures var u, x := s.cr.value.user, TargetOf(s.cr.value.user);
      var before, after := DocsAt(s.docs, x), DocsAt(Undisturbed(s).docs, x);
      && |after| == 1 && !HasDrift(u, after[0])
      && (HoldsSpec(u, after[0]) <==> (before != [] && DiffersUnseen(u, before[0]) ==> HasDrift(u, before[0])))
  {
    var u, x := s.cr.value.user, TargetOf(s.cr.value.user);
    var mine := DocsAt(s.docs, x);
    UndisturbedServes(s);
    FirstOfFiled(s.docs, x);
    assert |mine| <= 1;
    if mine == [] {
      InsertionStableIff(s.driver, u);
    } else {
      RepairedIff(s.driver, mine, u, 0);
      UpdateStableIff(s.driver, u, mine[0]);
    }
  }

  /** A CR that is being deleted and carries the finalizer: with its document there the document goes, and so
      does the finalizer, and no other, and the CR if that was its last. */
  ghost predicate LetGo(s: State, t: State)
    requires s.cr.Some?
  {
    var c, x := s.cr.value, TargetOf(s.cr.value.user);
    && DocsAt(t.docs, x) == [] && (forall y :: y != x ==> DocsAt(t.docs, y) == DocsAt(s.docs, y))
    && (t.cr.None? <==> forall f :: f in c.finalizers ==> f == Finalizer())
    && (t.cr.Some? ==> t.cr.value.user == c.user && t.cr.value.deleting)
    && (t.cr.Some? ==> forall f :: f in t.cr.value.finalizers <==> f in c.finalizers && f != Finalizer())
  }

  lemma {:induction false} WithoutIs(xs: seq<string>, x: string)
    ensures forall y :: y in Without(xs, x) <==> y in xs && y != x
  {
    if xs != [] { WithoutIs(xs[1..], x); }
  }

  lemma FinishReleasing(s: State)
    requires s.worker.Releasing?
    ensures Finish(s) == Happen(s, RemoveFinalizer(true))
  {
  }

  lemma FinishLeaving(s: State)
    requires s.worker.Leaving? && DocsAt(s.docs, TargetOf(s.worker.cr.user)) != []
    ensures Finish(s) == Happen(Happen(Happen(s, Lookup(true)), Delete(true)), RemoveFinalizer(true))
  {
    var s1 := Happen(s, Lookup(true));
    var s2 := Happen(s1, Delete(true));
    FinishReleasing(s2);
    assert Finish(s1) == Finish(s2);
  }

  lemma UndisturbedLetsGo(s: State)
    requires s.worker.Idle? && Carries(s.cr) && s.cr.value.deleting && Accounted(s)
    requires DocsAt(s.docs, TargetOf(s.cr.value.user)) != []
    ensures LetGo(s, Undisturbed(s)) && Undisturbed(s).worker.Idle?
  {
    var c := s.cr.value;
    var s1 := Happen(s, Get(true));
    assert s1 == s.(worker := Leaving(c));
    FinishLeaving(s1);
    LeavingCalls(s1);
    WithoutIs(c.finalizers, Finalizer());
    assert |DocsAt(s.docs, TargetOf(c.user))| == 1;
    var left := Without(c.finalizers, Finalizer());
    assert left == [] <==> forall f :: f !in left by { if left != [] { assert left[0] in left; } }
  }
}
