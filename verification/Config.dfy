/** The rendered configuration texts, and what can be read back from them. */
module Config {
  import opened Text
  import opened Model

  // ----- Slice blocks -----

  /** How a template writes one slice: a head, then two lines that each hold one field. */
  datatype Block = Block(head: string, pre1: string, post1: string, pre2: string, post2: string, sdFirst: bool)

  predicate ValidBlock(b: Block)
  {
    AtLineStart(b.head) && OneLine(b.pre1) && OneLine(b.post1) && OneLine(b.pre2) && OneLine(b.post2)
  }

  function AmfBlock(): Block
  {
    Block("", "      - sd: \"", "\"", "        sst: ", "", true)
  }

  function NssfBlock(inst: string): Block
  {
    Block("\n        - uri: http://" + inst + "-nrf-sbi:7777\n          s_nssai:",
          "            sst: \"", "\"", "            sd: \"", "\"", false)
  }

  function First(b: Block, x: Slice): string
  {
    if b.sdFirst then x.sd else x.sst
  }

  function Second(b: Block, x: Slice): string
  {
    if b.sdFirst then x.sst else x.sd
  }

  function SliceOf(b: Block, v1: string, v2: string): Slice
  {
    if b.sdFirst then Slice(v2, v1) else Slice(v1, v2)
  }

  function RenderSlice(b: Block, x: Slice): string
  {
    b.head + ("\n" + (b.pre1 + First(b, x) + b.post1)) + ("\n" + (b.pre2 + Second(b, x) + b.post2))
  }

  function RenderSlices(b: Block, xs: seq<Slice>): string
  {
    if xs == [] then "" else RenderSlice(b, xs[0]) + RenderSlices(b, xs[1..])
  }

  lemma {:induction false} RenderSlicesAppend(b: Block, xs: seq<Slice>, x: Slice)
    ensures RenderSlices(b, xs + [x]) == RenderSlices(b, xs) + RenderSlice(b, x)
  {
    if xs == [] {
      assert [x][1..] == [];
    } else {
      assert (xs + [x])[1..] == xs[1..] + [x];
      RenderSlicesAppend(b, xs[1..], x);
    }
  }

  /** The accumulating loop of CreateAMFConfigMap and of CreateNSSFConfigMap. */
  method AccumulateSlices(b: Block, slices: seq<Slice>) returns (text: string)
    ensures text == RenderSlices(b, slices)
  {
    text := "";
    for i := 0 to |slices|
      invariant text == RenderSlices(b, slices[..i])
    {
      assert slices[..i + 1] == slices[..i] + [slices[i]];
      RenderSlicesAppend(b, slices[..i], slices[i]);
      text := text + RenderSlice(b, slices[i]);
    }
    assert slices[..|slices|] == slices;
  }

  // ----- Reading slices back -----

  predicate CleanSlice(x: Slice)
  {
    OneLine(x.sst) && OneLine(x.sd)
  }

  predicate CleanSlices(xs: seq<Slice>)
  {
    forall i :: 0 <= i < |xs| ==> CleanSlice(xs[i])
  }

  /** The text of a line between a fixed prefix and a fixed suffix. */
  function Field(line: string, prefix: nat, suffix: nat): string
  {
    if prefix + suffix <= |line| then line[prefix..|line| - suffix] else ""
  }

  function Lead(b: Block): string
  {
    b.head + "\n" + b.pre1
  }

  function ParseSlices(b: Block, s: string): seq<Slice>
    decreases |s|
  {
    if !HasPrefix(s, Lead(b)) then []
    else
      var l1 := ReadLine(s[|b.head|..]);
      var l2 := ReadLine(l1.tail);
      [SliceOf(b, Field(l1.head, |b.pre1|, |b.post1|), Field(l2.head, |b.pre2|, |b.post2|))]
      + ParseSlices(b, l2.tail)
  }

  lemma FieldReads(pre: string, v: string, post: string)
    ensures Field(pre + v + post, |pre|, |post|) == v
  {
    var line := pre + v + post;
    assert line[|pre|..|line| - |post|] == v;
  }

  lemma PrefixOfConcat(prefix: string, rest: string)
    ensures HasPrefix(prefix + rest, prefix)
    ensures (prefix + rest)[|prefix|..] == rest
  {
    assert (prefix + rest)[..|prefix|] == prefix;
  }

  lemma BlockShape(head: string, pre: string, v: string, post: string, line2: string, more: string)
    ensures var line1 := pre + v + post; var tail := "\n" + line2 + more;
      && head + ("\n" + line1) + ("\n" + line2) + more == head + ("\n" + line1 + tail)
      && head + ("\n" + line1 + tail) == (head + "\n" + pre) + (v + post + tail)
  {
  }

  /** One rendered slice is one step of the parser. */
  lemma ParseStep(b: Block, x: Slice, more: string)
    requires ValidBlock(b) && CleanSlice(x) && AtLineStart(more)
    ensures AtLineStart(RenderSlice(b, x) + more)
    ensures ParseSlices(b, RenderSlice(b, x) + more) == [x] + ParseSlices(b, more)
  {
    var s, v := RenderSlice(b, x) + more, First(b, x);
    var line1, line2 := b.pre1 + v + b.post1, b.pre2 + Second(b, x) + b.post2;
    var tail := "\n" + line2 + more;
    BlockShape(b.head, b.pre1, v, b.post1, line2, more);
    PrefixOfConcat(b.head, "\n" + line1 + tail);
    PrefixOfConcat(Lead(b), v + b.post1 + tail);
    ReadLineReads(line1, tail);
    ReadLineReads(line2, more);
    FieldReads(b.pre1, v, b.post1);
    FieldReads(b.pre2, Second(b, x), b.post2);
  }

  lemma RenderCons(b: Block, xs: seq<Slice>, rest: string)
    requires xs != []
    ensures RenderSlices(b, xs) + rest == RenderSlice(b, xs[0]) + (RenderSlices(b, xs[1..]) + rest)
  {
    var one, tail := RenderSlice(b, xs[0]), RenderSlices(b, xs[1..]);
    assert (one + tail) + rest == one + (tail + rest);
  }

  lemma ParseNothing(b: Block, rest: string)
    requires !HasPrefix(rest, Lead(b))
    ensures ParseSlices(b, RenderSlices(b, []) + rest) == []
    ensures RenderSlices(b, []) + rest == rest
  {
    assert "" + rest == rest;
  }

  /** A rendered slice list followed by anything that is not another block reads back as itself. */
  lemma {:induction false} ParseSlicesReads(b: Block, xs: seq<Slice>, rest: string)
    requires ValidBlock(b) && CleanSlices(xs)
    requires AtLineStart(rest) && !HasPrefix(rest, Lead(b))
    ensures ParseSlices(b, RenderSlices(b, xs) + rest) == xs
    ensures AtLineStart(RenderSlices(b, xs) + rest)
  {
    if xs == [] {
      ParseNothing(b, rest);
    } else {
      ParseSlicesReads(b, xs[1..], rest);
      ParseStep(b, xs[0], RenderSlices(b, xs[1..]) + rest);
      RenderCons(b, xs, rest);
      assert xs == [xs[0]] + xs[1..];
    }
  }

  lemma FieldIsOneLine(line: string, prefix: nat, suffix: nat)
    requires OneLine(line)
    ensures OneLine(Field(line, prefix, suffix))
  {
  }

  /** What the parser returns never contains a newline, whatever the text. */
  lemma {:induction false} ParsedAreClean(b: Block, s: string)
    ensures CleanSlices(ParseSlices(b, s))
    decreases |s|
  {
    if HasPrefix(s, Lead(b)) {
      var l1 := ReadLine(s[|b.head|..]);
      var l2 := ReadLine(l1.tail);
      ReadLineIsOneLine(s[|b.head|..]);
      ReadLineIsOneLine(l1.tail);
      FieldIsOneLine(l1.head, |b.pre1|, |b.post1|);
      FieldIsOneLine(l2.head, |b.pre2|, |b.post2|);
      ParsedAreClean(b, l2.tail);
    }
  }

  // ----- The texts -----

  function Preamble(comp: string): seq<string>
  {
    ["logger:", "  level: info", "global:", comp + ":"]
  }

  function SbiServer(): seq<string>
  {
    ["  sbi:", "    server:", "    - dev: eth0", "      port: 7777"]
  }

  function ScpClient(inst: string): seq<string>
  {
    ["    client:", "      scp:", "      - uri: http://" + inst + "-scp-sbi:7777"]
  }

  function MetricsLines(): seq<string>
  {
    ["  metrics:", "   server:", "   - dev: eth0", "     port: 9090"]
  }

  function PlmnLines(cfg: Configuration): seq<string>
  {
    ["      plmn_id:", "        mcc: \"" + cfg.mcc + "\"", "        mnc: \"" + cfg.mnc + "\""]
  }

  function AmfServer(inst: string): string
  {
    Unlines(Preamble("amf") + SbiServer() + ScpClient(inst) + ["  ngap:", "    server:", "    - dev: eth0"])
  }

  function AmfIdentity(cfg: Configuration): seq<string>
  {
    ["    -", "      amf_id:", "        region: " + cfg.region, "        set: " + cfg.set_]
    + PlmnLines(cfg) + ["  tai:", "    -"] + PlmnLines(cfg) + ["      tac:", "      - " + cfg.tac,
    "  plmn_support:", "    -"] + PlmnLines(cfg) + ["      s_nssai:"]
  }

  function AmfTail(inst: string): seq<string>
  {
    ["    integrity_order: [NIA2, NIA1, NIA0]", "    ciphering_order: [NEA0, NEA1, NEA2]",
    "  network_name:", "    full: Gradiant", "  amf_name: " + inst + "-amf", "  time:", "    t3512:",
    "      value: 540", ""]
  }

  function SliceList(cfg: Configuration): seq<Slice>
  {
    if cfg.slices.None? then [] else cfg.slices.value
  }

  function AmfMetrics(metrics: bool): string
  {
    (if metrics then Unlines(MetricsLines()) else "") + "\n  guami:"
  }

  function AmfHead(inst: string, cfg: Configuration, metrics: bool): string
  {
    AmfServer(inst) + AmfMetrics(metrics) + Unlines(AmfIdentity(cfg))
  }

  function AmfText(inst: string, cfg: Configuration, metrics: bool): string
  {
    AmfHead(inst, cfg, metrics) + (RenderSlices(AmfBlock(), SliceList(cfg)) + ("\n  security:" + Unlines(AmfTail(inst))))
  }

  function NssfHead(inst: string): string
  {
    Unlines(Preamble("nssf") + SbiServer() + ScpClient(inst) + ["      nsi:"])
  }

  function NssfText(inst: string, cfg: Configuration): string
  {
    NssfHead(inst) + (RenderSlices(NssfBlock(inst), SliceList(cfg)) + "\n")
  }

  function SmfServer(inst: string): string
  {
    Unlines(Preamble("smf") + SbiServer() + ScpClient(inst)
            + ["  pfcp:", "    server:", "    - dev: eth0", "    client:", "      upf:",
               "      - address: " + inst + "-upf-pfcp"])
  }

  /** The metrics block of SMF and UPF; without metrics it is a line of two blanks. */
  function MetricsOrBlank(metrics: bool): string
  {
    if metrics then Unlines(MetricsLines()) else "\n  "
  }

  function SmfRest(): string
  {
    Unlines(["  gtpc:", "    server:", "    - dev: eth0", "  gtpu:", "    server:", "    - dev: eth0",
             "  session:", "    -", "      dnn: internet", "      gateway: 10.45.0.1",
             "      subnet: 10.45.0.0/16", "  dns:", "    -", "      8.8.8.8", "    -", "      8.8.4.4",
             "    -", "      2001:4860:4860::8888", "    -", "      2001:4860:4860::8844", "  mtu: 1400",
             "  ctf:", "    enabled: auto", ""])
  }

  function SmfText(inst: string, metrics: bool): string
  {
    SmfServer(inst) + (MetricsOrBlank(metrics) + SmfRest())
  }

  function PcfText(inst: string, metrics: bool): string
  {
    Unlines(Preamble("pcf") + SbiServer() + ScpClient(inst)) + (if metrics then Unlines(MetricsLines()) else "")
  }

  function ScpText(inst: string): string
  {
    Unlines(Preamble("scp") + SbiServer()
            + ["    client:", "      nrf:", "      - uri: http://" + inst + "-nrf-sbi:7777", ""])
  }

  function NrfText(mcc: string, mnc: string): string
  {
    Unlines(Preamble("nrf") + ["  serving:", "    -", "      plmn_id:", "        mcc: " + mcc,
                               "        mnc: " + mnc] + SbiServer() + [""])
  }

  function HnetKey(name: string): string
  {
    "    key: " + ("/opt/open5gs" + "/etc/open5gs" + "/hnet/" + name)
  }

  function HnetLines(): seq<string>
  {
    ["  hnet:",
     "  - id: 1", "    scheme: 1", HnetKey("curve25519-1.key"),
     "  - id: 2", "    scheme: 2", HnetKey("secp256r1-2.key"),
     "  - id: 3", "    scheme: 1", HnetKey("curve25519-3.key"),
     "  - id: 4", "    scheme: 2", HnetKey("secp256r1-4.key"),
     "  - id: 5", "    scheme: 1", HnetKey("curve25519-5.key"),
     "  - id: 6", "    scheme: 2", HnetKey("secp256r1-6.key")]
  }

  /** AUSF, BSF, UDM and UDR: an SBI server behind the SCP. */
  function PlainText(inst: string, comp: string, extra: seq<string>): string
  {
    Unlines(Preamble(comp) + extra + SbiServer() + ScpClient(inst) + [""])
  }

  function UpfText(gtpuDev: string, metrics: bool): string
  {
    Unlines(Preamble("upf") + ["  pfcp:", "    server:", "    - dev: eth0", "    client:", "  gtpu:", "    server:",
                               "    - dev: " + FillText(gtpuDev, "eth0")])
    + (MetricsOrBlank(metrics)
       + Unlines(["  session:", "    -", "      dev: ogstun", "      dnn: internet", "      gateway: 10.45.0.1",
                  "      subnet: 10.45.0.0/16", ""]))
  }

  // ----- What the texts determine -----

  lemma BlocksAreValid(inst: string)
    ensures ValidBlock(AmfBlock()) && ValidBlock(NssfBlock(inst))
  {
    assert NssfBlock(inst).head[0] == '\n';
  }

  lemma NotPrefix(s: string, prefix: string, i: nat)
    requires i < |s| && i < |prefix| && s[i] != prefix[i]
    ensures !HasPrefix(s, prefix)
  {
    if |prefix| <= |s| {
      assert s[..|prefix|][i] == s[i];
    }
  }

  /** The slice list is read back from the AMF text, whatever the other fields contain, exactly if no
      field of a slice contains a newline. */
  lemma AmfSlicesRecovered(inst: string, cfg: Configuration, metrics: bool)
    ensures HasPrefix(AmfText(inst, cfg, metrics), AmfHead(inst, cfg, metrics))
    ensures ParseSlices(AmfBlock(), AmfText(inst, cfg, metrics)[|AmfHead(inst, cfg, metrics)|..]) == SliceList(cfg)
            <==> CleanSlices(SliceList(cfg))
  {
    var rest := "\n  security:" + Unlines(AmfTail(inst));
    BlocksAreValid(inst);
    assert rest[3] == 's' && Lead(AmfBlock())[3] == ' ';
    NotPrefix(rest, Lead(AmfBlock()), 3);
    if CleanSlices(SliceList(cfg)) { ParseSlicesReads(AmfBlock(), SliceList(cfg), rest); }
    PrefixOfConcat(AmfHead(inst, cfg, metrics), RenderSlices(AmfBlock(), SliceList(cfg)) + rest);
    ParsedAreClean(AmfBlock(), AmfText(inst, cfg, metrics)[|AmfHead(inst, cfg, metrics)|..]);
  }

  lemma NssfSlicesRecovered(inst: string, cfg: Configuration)
    ensures HasPrefix(NssfText(inst, cfg), NssfHead(inst))
    ensures ParseSlices(NssfBlock(inst), NssfText(inst, cfg)[|NssfHead(inst)|..]) == SliceList(cfg)
            <==> CleanSlices(SliceList(cfg))
  {
    BlocksAreValid(inst);
    if CleanSlices(SliceList(cfg)) { ParseSlicesReads(NssfBlock(inst), SliceList(cfg), "\n"); }
    PrefixOfConcat(NssfHead(inst), RenderSlices(NssfBlock(inst), SliceList(cfg)) + "\n");
    ParsedAreClean(NssfBlock(inst), NssfText(inst, cfg)[|NssfHead(inst)|..]);
  }

  /** Two configurations that differ in their slice lists never render to the same AMF text or the
      same NSSF text. */
  lemma SlicesDetermined(inst: string, a: Configuration, b: Configuration, metrics: bool)
    requires CleanSlices(SliceList(a)) && CleanSlices(SliceList(b))
    requires b == a.(slices := b.slices) && SliceList(a) != SliceList(b)
    ensures AmfText(inst, a, metrics) != AmfText(inst, b, metrics)
    ensures NssfText(inst, a) != NssfText(inst, b)
  {
    assert AmfHead(inst, a, metrics) == AmfHead(inst, b, metrics);
    AmfSlicesRecovered(inst, a, metrics);
    AmfSlicesRecovered(inst, b, metrics);
    NssfSlicesRecovered(inst, a);
    NssfSlicesRecovered(inst, b);
  }

  /** The text of a slice `y` as the second field of a slice `x` can smuggle it in. */
  function Smuggled(b: Block, x: Slice, y: Slice): string
  {
    Second(b, x) + b.post2 + b.head + ("\n" + (b.pre1 + First(b, y) + b.post1)) + ("\n" + (b.pre2 + Second(b, y)))
  }

  lemma SmuggledRenders(front: string, pre: string, second: string, post: string, mid: string, last: string)
    ensures front + ("\n" + (pre + (second + post + mid + last) + post))
         == front + ("\n" + (pre + second + post)) + (mid + (last + post))
  {
  }

  /** Without the condition on newlines this fails for every block: a field that holds the text of a
      second slice renders like two slices. */
  lemma NewlineMakesSlicesCollide(b: Block, x: Slice, y: Slice)
    ensures var forged := SliceOf(b, First(b, x), Smuggled(b, x, y));
      [forged] != [x, y] && RenderSlices(b, [forged]) == RenderSlices(b, [x, y])
  {
    var forged := SliceOf(b, First(b, x), Smuggled(b, x, y));
    assert [forged][1..] == [] && [x, y][1..] == [y] && [y][1..] == [];
    assert RenderSlices(b, [forged]) == RenderSlice(b, forged);
    assert RenderSlices(b, [x, y]) == RenderSlice(b, x) + RenderSlice(b, y);
    assert |[forged]| == 1 && |[x, y]| == 2;
    var front := b.head + ("\n" + (b.pre1 + First(b, x) + b.post1));
    var mid := b.head + ("\n" + (b.pre1 + First(b, y) + b.post1));
    var last := "\n" + (b.pre2 + Second(b, y));
    assert Smuggled(b, x, y) == Second(b, x) + b.post2 + mid + last;
    SmuggledRenders(front, b.pre2, Second(b, x), b.post2, mid, last);
    assert RenderSlice(b, forged) == front + ("\n" + (b.pre2 + Smuggled(b, x, y) + b.post2));
    assert RenderSlice(b, y) == mid + (last + b.post2);
  }

  lemma DifferAfter(head: string, x: string, y: string, i: nat)
    requires i < |x| && i < |y| && x[i] != y[i]
    ensures head + x != head + y
  {
    assert (head + x)[|head| + i] == x[i] && (head + y)[|head| + i] == y[i];
  }

  lemma MetricsThirdChar()
    ensures |AmfMetrics(true)| > 3 && AmfMetrics(true)[3] == 'm'
    ensures |AmfMetrics(false)| > 3 && AmfMetrics(false)[3] == 'g'
    ensures |MetricsOrBlank(true)| > 3 && MetricsOrBlank(true)[3] == 'm'
    ensures |MetricsOrBlank(false)| == 3
    ensures |Unlines(MetricsLines())| > 3
  {
    assert Unlines(MetricsLines()) == "\n" + "  metrics:" + Unlines(MetricsLines()[1..]);
  }

  lemma Regroup(a: string, b: string, c: string, d: string)
    ensures (a + b + c) + d == a + (b + (c + d))
  {
  }

  /** AMF, SMF and PCF texts of one instance that agree agree on the metrics flag, whatever the
      rest of the configuration says. */
  lemma AmfTextShowsMetrics(inst: string, a: Configuration, b: Configuration)
    ensures AmfText(inst, a, true) != AmfText(inst, b, false)
  {
    var t := "\n  security:" + Unlines(AmfTail(inst));
    var x := Unlines(AmfIdentity(a)) + (RenderSlices(AmfBlock(), SliceList(a)) + t);
    var y := Unlines(AmfIdentity(b)) + (RenderSlices(AmfBlock(), SliceList(b)) + t);
    Regroup(AmfServer(inst), AmfMetrics(true), Unlines(AmfIdentity(a)), RenderSlices(AmfBlock(), SliceList(a)) + t);
    Regroup(AmfServer(inst), AmfMetrics(false), Unlines(AmfIdentity(b)), RenderSlices(AmfBlock(), SliceList(b)) + t);
    MetricsThirdChar();
    DifferAfter(AmfServer(inst), AmfMetrics(true) + x, AmfMetrics(false) + y, 3);
  }

  lemma SmfTextShowsMetrics(inst: string)
    ensures SmfText(inst, true) != SmfText(inst, false)
  {
    MetricsThirdChar();
    assert SmfRest()[0] == '\n';
    DifferAfter(SmfServer(inst), MetricsOrBlank(true) + SmfRest(), MetricsOrBlank(false) + SmfRest(), 3);
  }

  lemma PcfTextShowsMetrics(inst: string)
    ensures PcfText(inst, true) != PcfText(inst, false)
  {
    MetricsThirdChar();
  }
}
