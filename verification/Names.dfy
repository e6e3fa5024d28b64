/** Generated names, and the instance and component that a name belongs to. */
module Names {
  import opened Text
  import opened Model

  function BaseName(inst: string, c: Component): string
  {
    inst + "-" + Lower(c)
  }

  function ServiceName(inst: string, c: Component, protocol: string): string
  {
    BaseName(inst, c) + "-" + protocol
  }

  /** What a generated name says; `part` is a service protocol or the tail of an extra ConfigMap. */
  datatype Ident = Ident(inst: string, comp: Component, part: string)

  predicate Protocol(p: string)
  {
    p in {"sbi", "ngap", "metrics", "gtpc", "gtpu", "pfcp", "http"}
  }

  predicate ValidIdent(kind: Kind, i: Ident)
  {
    match kind
    case Service => if i.comp == MongoDB then i.part == "" else Protocol(i.part)
    case ConfigMap =>
      i.part == "" || (i.comp == UPF && i.part == "entrypoint")
      || (i.comp == MongoDB && i.part == "common-scripts")
    case _ => i.part == ""
  }

  function GeneratedName(i: Ident): string
  {
    if i.part == "" then BaseName(i.inst, i.comp) else ServiceName(i.inst, i.comp, i.part)
  }

  function ComponentOf(s: string): Option<Component>
  {
    if s == "amf" then Some(AMF)
    else if s == "ausf" then Some(AUSF)
    else if s == "bsf" then Some(BSF)
    else if s == "nrf" then Some(NRF)
    else if s == "nssf" then Some(NSSF)
    else if s == "smf" then Some(SMF)
    else if s == "pcf" then Some(PCF)
    else if s == "scp" then Some(SCP)
    else if s == "udm" then Some(UDM)
    else if s == "udr" then Some(UDR)
    else if s == "upf" then Some(UPF)
    else if s == "webui" then Some(WebUI)
    else if s == "mongodb" then Some(MongoDB)
    else None
  }

  function DecodeBase(name: string): Option<Ident>
  {
    match SplitLast(name)
    case None => None
    case Some(c) =>
      match ComponentOf(c.tail)
      case None => None
      case Some(comp) => Some(Ident(c.head, comp, ""))
  }

  /** The identity behind a name of a given kind. */
  function Decode(kind: Kind, name: string): Option<Ident>
  {
    match kind
    case Service => DecodeService(name)
    case ConfigMap => DecodeConfigMap(name)
    case _ => DecodeBase(name)
  }

  function WithPart(base: Option<Ident>, part: string): Option<Ident>
  {
    match base
    case None => None
    case Some(i) => Some(i.(part := part))
  }

  function DecodeService(name: string): Option<Ident>
  {
    match SplitLast(name)
    case None => None
    case Some(c) =>
      if c.tail == "mongodb" then Some(Ident(c.head, MongoDB, ""))
      else if Protocol(c.tail) then
        var i := WithPart(DecodeBase(c.head), c.tail);
        if i.Some? && i.value.comp != MongoDB then i else None
      else None
  }

  function DecodeConfigMap(name: string): Option<Ident>
  {
    match SplitLast(name)
    case None => None
    case Some(c) =>
      if c.tail == "entrypoint" then
        var i := WithPart(DecodeBase(c.head), "entrypoint");
        if i.Some? && i.value.comp == UPF then i else None
      else if c.tail == "scripts" then
        match SplitLast(c.head)
        case None => None
        case Some(d) =>
          var i := WithPart(DecodeBase(d.head), "common-scripts");
          if d.tail == "common" && i.Some? && i.value.comp == MongoDB then i else None
      else DecodeBase(name)
  }

  lemma LowerIsSimple(c: Component)
    ensures '-' !in Lower(c) && |Lower(c)| >= 3
    ensures ComponentOf(Lower(c)) == Some(c)
  {
    match c
    case AMF => assert Lower(c)[0] == 'a';
    case AUSF => assert Lower(c)[0] == 'a';
    case BSF => assert Lower(c)[0] == 'b';
    case NRF => assert Lower(c)[0] == 'n';
    case NSSF => assert Lower(c)[0] == 'n';
    case SMF => assert Lower(c)[0] == 's';
    case PCF => assert Lower(c)[0] == 'p';
    case SCP => assert Lower(c)[0] == 's' && Lower(c)[1] == 'c';
    case UDM => assert Lower(c)[0] == 'u' && Lower(c)[1] == 'd' && Lower(c)[2] == 'm';
    case UDR => assert Lower(c)[0] == 'u' && Lower(c)[1] == 'd' && Lower(c)[2] == 'r';
    case UPF => assert Lower(c)[0] == 'u' && Lower(c)[1] == 'p';
    case WebUI => assert Lower(c)[0] == 'w';
    case MongoDB => assert Lower(c)[0] == 'm';
  }

  lemma ComponentOfSound(s: string)
    ensures ComponentOf(s).Some? ==> s == Lower(ComponentOf(s).value)
  {
  }

  lemma DecodeBaseName(inst: string, c: Component)
    ensures SplitLast(BaseName(inst, c)) == Some(Cut(inst, Lower(c)))
    ensures DecodeBase(BaseName(inst, c)) == Some(Ident(inst, c, ""))
  {
    LowerIsSimple(c);
    SplitLastJoins(inst, Lower(c));
  }

  lemma ProtocolIsSimple(p: string)
    requires Protocol(p)
    ensures p != "" && '-' !in p && p != "mongodb"
  {
    if p == "metrics" { assert p[1] == 'e'; }
  }

  lemma DecodeServiceName(i: Ident)
    requires ValidIdent(Service, i)
    ensures DecodeService(GeneratedName(i)) == Some(i)
  {
    DecodeBaseName(i.inst, i.comp);
    if i.comp != MongoDB {
      ProtocolIsSimple(i.part);
      SplitLastJoins(BaseName(i.inst, i.comp), i.part);
    }
  }

  lemma DecodeScripts(inst: string)
    ensures DecodeConfigMap(ServiceName(inst, MongoDB, "common-scripts")) == Some(Ident(inst, MongoDB, "common-scripts"))
  {
    var base := BaseName(inst, MongoDB);
    DecodeBaseName(inst, MongoDB);
    assert base + "-" + "common-scripts" == (base + "-" + "common") + "-" + "scripts";
    assert '-' !in "scripts" && '-' !in "common";
    SplitLastJoins(base + "-" + "common", "scripts");
    SplitLastJoins(base, "common");
    assert "scripts"[0] == 's';
  }

  lemma DecodeEntrypoint(inst: string)
    ensures DecodeConfigMap(ServiceName(inst, UPF, "entrypoint")) == Some(Ident(inst, UPF, "entrypoint"))
  {
    DecodeBaseName(inst, UPF);
    assert '-' !in "entrypoint";
    SplitLastJoins(BaseName(inst, UPF), "entrypoint");
  }

  lemma DecodeBaseConfigMap(inst: string, c: Component)
    ensures DecodeConfigMap(BaseName(inst, c)) == Some(Ident(inst, c, ""))
  {
    DecodeBaseName(inst, c);
    LowerIsSimple(c);
    assert |"entrypoint"| == 10 && "scripts"[1] == 'c' && "scripts"[0] == 's' && Lower(SCP)[2] == 'p';
  }

  /** A generated name determines its instance, component and protocol or extra part, for every
      instance name, dashes included. */
  lemma DecodeGenerated(kind: Kind, i: Ident)
    requires ValidIdent(kind, i)
    ensures Decode(kind, GeneratedName(i)) == Some(i)
  {
    if kind == Service {
      DecodeServiceName(i);
    } else if i.part == "" {
      DecodeBaseName(i.inst, i.comp);
      DecodeBaseConfigMap(i.inst, i.comp);
    } else if i.comp == UPF {
      DecodeEntrypoint(i.inst);
    } else {
      DecodeScripts(i.inst);
    }
  }

  lemma NamesAreInjective(kind: Kind, i: Ident, j: Ident)
    requires ValidIdent(kind, i) && ValidIdent(kind, j)
    requires GeneratedName(i) == GeneratedName(j)
    ensures i == j
  {
    DecodeGenerated(kind, i);
    DecodeGenerated(kind, j);
  }

  lemma DecodeBaseSound(name: string)
    ensures DecodeBase(name).Some? ==>
      var i := DecodeBase(name).value; i.part == "" && BaseName(i.inst, i.comp) == name
  {
    SplitLastSound(name);
    if SplitLast(name).Some? { ComponentOfSound(SplitLast(name).value.tail); }
  }

  lemma DecodeServiceSound(name: string)
    requires DecodeService(name).Some?
    ensures ValidIdent(Service, DecodeService(name).value) && GeneratedName(DecodeService(name).value) == name
  {
    SplitLastSound(name);
    DecodeBaseSound(SplitLast(name).value.head);
  }

  lemma DecodeConfigMapSound(name: string)
    requires DecodeConfigMap(name).Some?
    ensures ValidIdent(ConfigMap, DecodeConfigMap(name).value) && GeneratedName(DecodeConfigMap(name).value) == name
  {
    SplitLastSound(name);
    DecodeBaseSound(name);
    var c := SplitLast(name).value;
    if c.tail == "entrypoint" {
      DecodeBaseSound(c.head);
    } else if c.tail == "scripts" {
      SplitLastSound(c.head);
      var d := SplitLast(c.head).value;
      DecodeBaseSound(d.head);
      assert d.head + "-" + "common-scripts" == (d.head + "-" + "common") + "-" + "scripts";
    }
  }

  /** Only generated names decode. */
  lemma DecodeSound(kind: Kind, name: string)
    requires Decode(kind, name).Some?
    ensures ValidIdent(kind, Decode(kind, name).value)
    ensures GeneratedName(Decode(kind, name).value) == name
  {
    match kind
    case Service => DecodeServiceSound(name);
    case ConfigMap => DecodeConfigMapSound(name);
    case _ => DecodeBaseSound(name);
  }

  // ----- Which instance and component a key, and an object's labels, speak for -----

  datatype Owner = Owner(ns: string, inst: string, comp: Component)

  function NameOwner(k: Key): Option<Owner>
  {
    match Decode(k.kind, k.name)
    case None => None
    case Some(i) => Some(Owner(k.ns, i.inst, i.comp))
  }

  function LabelOwner(k: Key, o: Obj): Option<Owner>
  {
    if Instance in o.labels && Name in o.labels && ComponentOf(o.labels[Name]).Some? then
      Some(Owner(k.ns, o.labels[Instance], ComponentOf(o.labels[Name]).value))
    else None
  }

  predicate Labelled(o: Obj, inst: string, c: Component)
  {
    && Instance in o.labels && o.labels[Instance] == inst
    && Name in o.labels && o.labels[Name] == Lower(c)
  }

  lemma LabelledMeansOwner(k: Key, o: Obj, inst: string, c: Component)
    ensures Labelled(o, inst, c) <==> LabelOwner(k, o) == Some(Owner(k.ns, inst, c))
  {
    LowerIsSimple(c);
    if Name in o.labels { ComponentOfSound(o.labels[Name]); }
  }

  /** The test that teardown makes on service names. */
  predicate TeardownPrefix(inst: string, c: Component, name: string)
  {
    HasPrefix(name, BaseName(inst, c))
  }

  /** Two component names differ within their first three characters. */
  lemma LowerPrefixFree(c: Component, d: Component) returns (i: nat)
    requires c != d
    ensures i < 3 <= |Lower(c)| && 3 <= |Lower(d)| && Lower(c)[i] != Lower(d)[i]
  {
    var x, y := Lower(c), Lower(d);
    i := if x[0] != y[0] then 0 else if x[1] != y[1] then 1 else 2;
  }

  /** No component's prefix matches a generated name of another component of the instance. */
  lemma PrefixMeansComponent(inst: string, c: Component, kind: Kind, i: Ident)
    requires i.inst == inst
    ensures TeardownPrefix(inst, c, GeneratedName(i)) <==> c == i.comp
  {
    var name := GeneratedName(i);
    var rest := if i.part == "" then "" else "-" + i.part;
    LowerIsSimple(c);
    LowerIsSimple(i.comp);
    assert name == (inst + "-") + (Lower(i.comp) + rest);
    assert BaseName(inst, c) == (inst + "-") + Lower(c);
    if c == i.comp {
      assert name == BaseName(inst, c) + rest;
      assert name[..|BaseName(inst, c)|] == BaseName(inst, c);
    } else {
      var x := LowerPrefixFree(c, i.comp);
      var n, base := |inst + "-"|, BaseName(inst, c);
      assert base[n + x] == Lower(c)[x];
      assert name[n + x] == Lower(i.comp)[x];
      assert |base| <= |name| ==> name[..|base|][n + x] == name[n + x];
    }
  }
}
