/** Subscriber documents in MongoDB, and one user's pass over the collection. */
module Subscribers {
  import opened Text

  /** `instance` is `open5gs.name`, the Open5GS of the user's own namespace whose MongoDB holds the subscriber;
      `namespace` is `open5gs.namespace`. */
  datatype User = User(instance: string, namespace: string, imsi: string, key: string, opc: string, sd: string, sst: string, apn: string)

  /** The Go type under which the driver hands a stored number back. */
  datatype Numeric = GoInt | GoInt32 | GoInt64 | GoFloat64

  datatype Value = Absent | Str(s: string) | Number(tag: Numeric, n: int) | Else(what: string)

  /** The first slice, with the name of its first session; `other` is everything else in it. */
  datatype SliceDoc = SliceDoc(sst: Value, sd: Value, apn: Value, other: string)

  /** A subscriber that has a slice and a session; `other` is everything else in the document. */
  datatype Doc = Doc(imsi: string, k: Value, opc: Value, slice: SliceDoc, other: string)

  /** The tag under which a number that the operator wrote is read back. */
  type Driver = int -> Numeric

  // ----- Documents -----

  function Written(driver: Driver, n: int): Value
  {
    Number(driver(n), n)
  }

  function Generated(): string {
    "(generated)"
  }

  function Insertion(driver: Driver, u: User, sst: int, sd: Value, apn: string): Doc
  {
    Doc(u.imsi, Str(u.key), Str(u.opc), SliceDoc(Written(driver, sst), sd, Str(apn), Generated()), Generated())
  }

  predicate FullSlice(u: User)
  {
    u.sst != "" && u.sd != "" && u.apn != ""
  }

  /** addSubscriberWithSlice, addSubscriberWithAPN or addSubscriberWithDefaults. */
  function NewDoc(driver: Driver, u: User): Option<Doc>
  {
    if FullSlice(u) then
      match Atoi(u.sst)
      case None => None
      case Some(n) => Some(Insertion(driver, u, n, Str(u.sd), u.apn))
    else if u.apn != "" then Some(Insertion(driver, u, 1, Absent, u.apn))
    else Some(Insertion(driver, u, 1, Absent, "internet"))
  }

  /** hasDrift: a number counts only if it comes back as a Go int, a text only if it comes back as one. */
  predicate HasDrift(u: User, d: Doc)
  {
    || d.k != Str(u.key)
    || d.opc != Str(u.opc)
    || (d.slice.sst.Number? && d.slice.sst.tag == GoInt && Itoa(d.slice.sst.n) != u.sst)
    || (d.slice.sd.Str? && d.slice.sd.s != u.sd)
    || (d.slice.apn.Str? && d.slice.apn.s != u.apn)
  }

  /** updateSubscriber: the fields it sets. */
  function UpdatedDoc(driver: Driver, u: User, d: Doc): Option<Doc>
  {
    var secured := d.(k := Str(u.key), opc := Str(u.opc));
    if u.sst != "" || u.sd != "" then
      match Atoi(u.sst)
      case None => None
      case Some(n) =>
        Some(secured.(slice := d.slice.(sst := Written(driver, n), sd := Str(u.sd), apn := Str(u.apn))))
    else Some(secured.(slice := d.slice.(apn := Str(u.apn))))
  }

  // ----- The collection -----

  type Docs = seq<Doc>

  /** The position of the first document with the IMSI, if any. */
  function First(docs: Docs, imsi: string): (r: Option<nat>)
    ensures r.Some? ==> r.value < |docs| && docs[r.value].imsi == imsi
    ensures r.None? ==> forall i :: 0 <= i < |docs| ==> docs[i].imsi != imsi
  {
    if docs == [] then None
    else if docs[0].imsi == imsi then Some(0)
    else match First(docs[1..], imsi) case None => None case Some(i) => Some(i + 1)
  }

  /** The documents whose IMSI is in a set. */
  function Within(docs: Docs, imsis: set<string>): Docs
  {
    if docs == [] then []
    else (if docs[0].imsi in imsis then [docs[0]] else []) + Within(docs[1..], imsis)
  }

  function Of(docs: Docs, imsi: string): Docs
  {
    Within(docs, {imsi})
  }

  predicate Unique(docs: Docs)
  {
    forall i, j :: 0 <= i < |docs| && 0 <= j < |docs| && docs[i].imsi == docs[j].imsi ==> i == j
  }

  /** One addOrUpdateSubscriber whose calls succeed: the new collection, or an error that changes nothing. */
  function AfterPass(driver: Driver, docs: Docs, u: User): Option<Docs>
  {
    match First(docs, u.imsi)
    case None =>
      (match NewDoc(driver, u) case None => None case Some(d) => Some(docs + [d]))
    case Some(i) =>
      if !HasDrift(u, docs[i]) then Some(docs)
      else match UpdatedDoc(driver, u, docs[i]) case None => None case Some(d) => Some(docs[i := d])
  }

  /** deleteSubscriberMongo: deleting nothing is an error. */
  function AfterDelete(docs: Docs, u: User): Option<Docs>
  {
    match First(docs, u.imsi)
    case None => None
    case Some(i) => Some(docs[..i] + docs[i + 1..])
  }

  lemma {:induction false} WithinConcat(a: Docs, b: Docs, imsis: set<string>)
    ensures Within(a + b, imsis) == Within(a, imsis) + Within(b, imsis)
  {
    if a == [] {
      assert a + b == b;
    } else {
      assert (a + b)[1..] == a[1..] + b;
      WithinConcat(a[1..], b, imsis);
      var one := if a[0].imsi in imsis then [a[0]] else [];
      assert Within(a + b, imsis) == one + Within(a[1..] + b, imsis);
      assert one + (Within(a[1..], imsis) + Within(b, imsis)) == (one + Within(a[1..], imsis)) + Within(b, imsis);
    }
  }

  lemma WithinOne(d: Doc, imsis: set<string>)
    ensures Within([d], imsis) == if d.imsi in imsis then [d] else []
  {
    assert [d][1..] == [];
  }

  lemma SplitAt(docs: Docs, i: nat)
    requires i < |docs|
    ensures docs == docs[..i] + [docs[i]] + docs[i + 1..]
  {
  }

  lemma WithinSplit(docs: Docs, i: nat, imsis: set<string>)
    requires i < |docs|
    ensures Within(docs, imsis)
         == Within(docs[..i], imsis) + (if docs[i].imsi in imsis then [docs[i]] else []) + Within(docs[i + 1..], imsis)
  {
    SplitAt(docs, i);
    WithinConcat(docs[..i] + [docs[i]], docs[i + 1..], imsis);
    WithinConcat(docs[..i], [docs[i]], imsis);
    WithinOne(docs[i], imsis);
  }

  lemma {:induction false} NoneWithin(docs: Docs, imsi: string)
    requires forall i :: 0 <= i < |docs| ==> docs[i].imsi != imsi
    ensures Of(docs, imsi) == []
  {
    if docs != [] {
      assert docs[0].imsi != imsi;
      forall i | 0 <= i < |docs[1..]| ensures docs[1..][i].imsi != imsi { assert docs[i + 1].imsi != imsi; }
      NoneWithin(docs[1..], imsi);
    }
  }

  /** In a collection with unique IMSIs the documents of an IMSI are its first document, if any. */
  lemma UniqueOf(docs: Docs, imsi: string)
    requires Unique(docs)
    ensures Of(docs, imsi) == match First(docs, imsi) case None => [] case Some(i) => [docs[i]]
  {
    match First(docs, imsi)
    case None => NoneWithin(docs, imsi);
    case Some(i) =>
      WithinSplit(docs, i, {imsi});
      NoneWithin(docs[..i], imsi);
      NoneWithin(docs[i + 1..], imsi);
  }

  // ----- One pass -----

  /** A pass keeps IMSIs unique. */
  lemma PassKeepsUnique(driver: Driver, docs: Docs, u: User)
    requires Unique(docs) && AfterPass(driver, docs, u).Some?
    ensures Unique(AfterPass(driver, docs, u).value)
  {
  }

  lemma DeleteKeepsUnique(docs: Docs, u: User)
    requires Unique(docs) && AfterDelete(docs, u).Some?
    ensures Unique(AfterDelete(docs, u).value) && Of(AfterDelete(docs, u).value, u.imsi) == []
  {
    var i := First(docs, u.imsi).value;
    var after := docs[..i] + docs[i + 1..];
    forall j ensures 0 <= j < |after| ==> after[j] == docs[if j < i then j else j + 1] {}
    forall j | 0 <= j < |after| ensures after[j].imsi != u.imsi {
      assert docs[if j < i then j else j + 1].imsi != u.imsi;
    }
    NoneWithin(after, u.imsi);
  }

  /** The documents of other IMSIs are untouched by a pass, and keep their order. */
  lemma PassKeepsOthers(driver: Driver, docs: Docs, u: User, imsis: set<string>)
    requires AfterPass(driver, docs, u).Some? && u.imsi !in imsis
    ensures Within(AfterPass(driver, docs, u).value, imsis) == Within(docs, imsis)
  {
    match First(docs, u.imsi)
    case None =>
      var d := NewDoc(driver, u).value;
      WithinConcat(docs, [d], imsis);
      WithinOne(d, imsis);
    case Some(i) =>
      var after := AfterPass(driver, docs, u).value;
      WithinSplit(docs, i, imsis);
      WithinSplit(after, i, imsis);
      assert after[..i] == docs[..i] && after[i + 1..] == docs[i + 1..];
  }

  lemma DeleteKeepsOthers(docs: Docs, u: User, imsis: set<string>)
    requires AfterDelete(docs, u).Some? && u.imsi !in imsis
    ensures Within(AfterDelete(docs, u).value, imsis) == Within(docs, imsis)
  {
    var i := First(docs, u.imsi).value;
    WithinSplit(docs, i, imsis);
    WithinConcat(docs[..i], docs[i + 1..], imsis);
  }

  /** A pass for a user depends on the documents of the user's IMSI only, and changes only those. */
  lemma PassIsLocal(driver: Driver, docs: Docs, u: User)
    requires Unique(docs)
    ensures var own, after := AfterPass(driver, Of(docs, u.imsi), u), AfterPass(driver, docs, u);
      own.Some? == after.Some? && (after.Some? ==> own.value == Of(after.value, u.imsi))
  {
    UniqueOf(docs, u.imsi);
    var after := AfterPass(driver, docs, u);
    if after.Some? {
      PassKeepsUnique(driver, docs, u);
      UniqueOf(after.value, u.imsi);
      var found := First(docs, u.imsi);
      var j := if found.Some? then found.value else |docs|;
      assert after.value[j].imsi == u.imsi;
      assert First(after.value, u.imsi) == Some(j);
    }
  }

  /** What an update may change: k, opc, and the first slice's sst, sd and session name. */
  predicate SameButManaged(d: Doc, e: Doc)
  {
    e == d.(k := e.k, opc := e.opc, slice := d.slice.(sst := e.slice.sst, sd := e.slice.sd, apn := e.slice.apn))
  }

  lemma UpdatePreservesTheRest(driver: Driver, u: User, d: Doc)
    ensures UpdatedDoc(driver, u, d).Some? ==> SameButManaged(d, UpdatedDoc(driver, u, d).value)
  {
  }

  predicate Complete(u: User)
  {
    u.sd != "" && u.apn != "" && Atoi(u.sst).Some? && Canonical(u.sst)
  }

  /** The spec gives an SST or an SD, so that an update writes both. */
  predicate GivesSlice(u: User)
  {
    u.sst != "" || u.sd != ""
  }

  /** When an updated document is free of drift: the SST that it now holds, written or left, is read back as
      it stands in the spec, and a left SD is no other text. */
  lemma UpdateStableIff(driver: Driver, u: User, d: Doc)
    requires UpdatedDoc(driver, u, d).Some?
    ensures !HasDrift(u, UpdatedDoc(driver, u, d).value) <==>
      if GivesSlice(u) then driver(Atoi(u.sst).value) == GoInt ==> Canonical(u.sst)
      else !(d.slice.sst.Number? && d.slice.sst.tag == GoInt) && (d.slice.sd.Str? ==> d.slice.sd.s == "")
  {
    if GivesSlice(u) {
      ItoaAtoi(u.sst);
    } else if d.slice.sst.Number? {
      ItoaNotEmpty(d.slice.sst.n);
    }
  }

  lemma ItoaNotEmpty(n: int)
    ensures Itoa(n) != ""
  {
    if n < 0 { DecimalRoundTrip(-n); } else { DecimalRoundTrip(n); }
  }

  /** For a user with SD, APN and a canonical decimal SST, from any collection with unique IMSIs: one
      successful pass leaves exactly one document for the IMSI, without drift, and a second pass writes
      nothing, whatever Go type the driver uses for numbers. */
  lemma PassConverges(driver: Driver, docs: Docs, u: User)
    requires Complete(u) && Unique(docs)
    ensures var after := AfterPass(driver, docs, u);
      && after.Some? && Unique(after.value)
      && |Of(after.value, u.imsi)| == 1 && !HasDrift(u, Of(after.value, u.imsi)[0])
      && AfterPass(driver, after.value, u) == Some(after.value)
  {
    ItoaAtoi(u.sst);
    var found := First(docs, u.imsi);
    if found.Some? { UpdateStableIff(driver, u, docs[found.value]); }
    var after := AfterPass(driver, docs, u).value;
    PassKeepsUnique(driver, docs, u);
    UniqueOf(after, u.imsi);
    var j := if found.Some? then found.value else |docs|;
    assert after[j].imsi == u.imsi && !HasDrift(u, after[j]);
    assert First(after, u.imsi) == Some(j);
  }

  // ----- Where convergence fails -----

  /** When a freshly inserted document is already free of drift. It is not for a user without an APN:
      the default APN that was inserted counts as drift. */
  lemma InsertionStableIff(driver: Driver, u: User)
    requires NewDoc(driver, u).Some?
    ensures !HasDrift(u, NewDoc(driver, u).value) <==>
      && u.apn != ""
      && (if FullSlice(u) then (driver(Atoi(u.sst).value) == GoInt ==> Canonical(u.sst))
          else (driver(1) == GoInt ==> u.sst == "1"))
  {
    if FullSlice(u) { ItoaAtoi(u.sst); }
    assert Itoa(1) == "1";
    if u.apn == "" { assert |"internet"| == 8; }
  }

  /** A user without an APN loses the default: the first pass inserts "internet", and the second pass,
      when the SST parses or is not needed, replaces it with the empty name. */
  lemma DefaultApnLost(driver: Driver, docs: Docs, u: User)
    requires Unique(docs) && First(docs, u.imsi).None? && u.apn == ""
    requires (u.sst == "" && u.sd == "") || Atoi(u.sst).Some?
    ensures var one := AfterPass(driver, docs, u);
      && one.Some? && Of(one.value, u.imsi) == [Insertion(driver, u, 1, Absent, "internet")]
      && var two := AfterPass(driver, one.value, u);
         two.Some? && |Of(two.value, u.imsi)| == 1 && Of(two.value, u.imsi)[0].slice.apn == Str("")
  {
    var d := Insertion(driver, u, 1, Absent, "internet");
    var one := docs + [d];
    PassKeepsUnique(driver, docs, u);
    UniqueOf(one, u.imsi);
    assert one[|docs|] == d;
    assert First(one, u.imsi) == Some(|docs|);
    assert |"internet"| == 8;
    PassKeepsUnique(driver, one, u);
    var two := AfterPass(driver, one, u).value;
    UniqueOf(two, u.imsi);
    assert two[|docs|].imsi == u.imsi && First(two, u.imsi) == Some(|docs|);
  }

  /** A difference in the SST alone is corrected exactly when the driver reads the stored number as a
      Go int. */
  lemma SstRepairedIff(driver: Driver, docs: Docs, u: User, i: nat)
    requires Complete(u) && Unique(docs) && First(docs, u.imsi) == Some(i)
    requires docs[i].slice.sst.Number? && docs[i].slice.sst.n != Atoi(u.sst).value
    requires docs[i].k == Str(u.key) && docs[i].opc == Str(u.opc)
    requires docs[i].slice.sd == Str(u.sd) && docs[i].slice.apn == Str(u.apn)
    ensures AfterPass(driver, docs, u).Some?
    ensures AfterPass(driver, docs, u).value[i].slice.sst == Written(driver, Atoi(u.sst).value) <==>
      docs[i].slice.sst.tag == GoInt
  {
    var d := docs[i];
    if d.slice.sst.tag == GoInt && Itoa(d.slice.sst.n) == u.sst {
      ItoaParsed(d.slice.sst.n, u.sst);
    }
  }

  lemma ItoaParsed(n: int, s: string)
    requires Itoa(n) == s && Atoi(s).Some?
    ensures Atoi(s).value == n
  {
    if n < 0 {
      DecimalRoundTrip(-n);
      assert Itoa(n)[1..] == Decimal(-n);
    } else {
      DecimalRoundTrip(n);
      assert IsDigit(Itoa(n)[0]);
    }
  }

  // ----- Which differences a pass repairs -----

  /** The document holds what the spec gives. A spec without SST and SD gives no slice. */
  predicate Agrees(u: User, d: Doc)
  {
    && d.k == Str(u.key) && d.opc == Str(u.opc) && d.slice.apn == Str(u.apn)
    && (GivesSlice(u) ==>
          d.slice.sst.Number? && Some(d.slice.sst.n) == Atoi(u.sst) && d.slice.sd == Str(u.sd))
  }

  /** The SST of the spec can be written, or need not be. */
  predicate Writable(u: User)
  {
    GivesSlice(u) ==> Atoi(u.sst).Some?
  }

  /** A field differs in a form that the drift check skips: a text that is missing or of another type, an
      SST that is not a Go int. */
  predicate DiffersUnseen(u: User, d: Doc)
  {
    || !d.slice.apn.Str?
    || (GivesSlice(u) && !d.slice.sd.Str?)
    || (GivesSlice(u) && !d.slice.sst.Number?)
    || (GivesSlice(u) && d.slice.sst.Number? && d.slice.sst.tag != GoInt && Some(d.slice.sst.n) != Atoi(u.sst))
  }

  lemma UndriftedAgreesIff(u: User, d: Doc)
    requires !HasDrift(u, d) && Writable(u)
    ensures Agrees(u, d) <==> !DiffersUnseen(u, d)
  {
    if GivesSlice(u) && d.slice.sst.Number? && d.slice.sst.tag == GoInt { ItoaParsed(d.slice.sst.n, u.sst); }
  }

  lemma UpdatedAgrees(driver: Driver, u: User, d: Doc)
    requires UpdatedDoc(driver, u, d).Some?
    ensures Agrees(u, UpdatedDoc(driver, u, d).value)
  {
  }

  /** For every user and every stored document: after one pass the document holds what the spec gives if and
      only if the SST can be written and no field differs unseen, or some other difference gives it away. */
  lemma RepairedIff(driver: Driver, docs: Docs, u: User, i: nat)
    requires First(docs, u.imsi) == Some(i)
    ensures var after := AfterPass(driver, docs, u);
      after.Some? && Agrees(u, after.value[i]) <==> Writable(u) && (DiffersUnseen(u, docs[i]) ==> HasDrift(u, docs[i]))
  {
    var d := docs[i];
    if !HasDrift(u, d) {
      if Writable(u) { UndriftedAgreesIff(u, d); }
    } else if Writable(u) {
      UpdatedAgrees(driver, u, d);
    }
  }

  /** An SD that is given only after the document was inserted is never written, unless something else has
      changed too: the next passes see no drift. */
  lemma LateSdNeverWritten(driver: Driver, docs: Docs, u: User, sd: string)
    requires Unique(docs) && First(docs, u.imsi).None? && u.sst == "1" && u.sd == "" && u.apn != "" && sd != ""
    ensures var one, v := AfterPass(driver, docs, u), u.(sd := sd);
      && one.Some? && AfterPass(driver, one.value, v) == Some(one.value)
      && |Of(one.value, u.imsi)| == 1 && Of(one.value, u.imsi)[0].slice.sd == Absent
  {
    var d := Insertion(driver, u, 1, Absent, u.apn);
    var one := docs + [d];
    assert Itoa(1) == "1";
    PassKeepsUnique(driver, docs, u);
    UniqueOf(one, u.imsi);
    assert one[|docs|] == d;
    assert First(one, u.imsi) == Some(|docs|);
  }

  // ----- Runs over many users -----

  /** One attempt for one user CR; `reached` is false when a call failed before anything was written. */
  datatype Attempt = Pass(user: User, reached: bool) | Remove(user: User, reached: bool)

  /** What an attempt makes of the collection of one instance. */
  function AfterAttempt(driver: Driver, instance: string, docs: Docs, a: Attempt): Docs
  {
    var after := if a.Pass? then AfterPass(driver, docs, a.user) else AfterDelete(docs, a.user);
    if a.reached && a.user.instance == instance && after.Some? then after.value else docs
  }

  function AfterRun(driver: Driver, instance: string, docs: Docs, run: seq<Attempt>): Docs
    decreases |run|
  {
    if run == [] then docs else AfterRun(driver, instance, AfterAttempt(driver, instance, docs, run[0]), run[1..])
  }

  /** Over any run of any user CRs of any instances, processed one at a time, with any calls failing: the
      documents of IMSIs that belong to none of an instance's CRs are the same, in the same order, and
      IMSIs stay unique within each collection. */
  lemma {:induction false} UnmanagedUntouched(driver: Driver, instance: string, docs: Docs, run: seq<Attempt>, imsis: set<string>)
    requires Unique(docs) && forall a :: a in run && a.user.instance == instance ==> a.user.imsi !in imsis
    ensures Within(AfterRun(driver, instance, docs, run), imsis) == Within(docs, imsis)
    ensures Unique(AfterRun(driver, instance, docs, run))
    decreases |run|
  {
    if run != [] {
      var a := run[0];
      if a.reached && a.user.instance == instance {
        if a.Pass? && AfterPass(driver, docs, a.user).Some? {
          PassKeepsOthers(driver, docs, a.user, imsis);
          PassKeepsUnique(driver, docs, a.user);
        } else if a.Remove? && AfterDelete(docs, a.user).Some? {
          DeleteKeepsOthers(docs, a.user, imsis);
          DeleteKeepsUnique(docs, a.user);
        }
      }
      UnmanagedUntouched(driver, instance, AfterAttempt(driver, instance, docs, a), run[1..], imsis);
    }
  }
}
