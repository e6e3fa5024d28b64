/** What the components read in their files: values of the spec, and addresses of generated services. */
module Files {
  import opened Text
  import opened Model
  import opened Names
  import opened Config
  import opened Resources
  import opened Reading

  // ----- Looking up a line -----

  /** The lines after the first that equals `header`. */
  function After(ls: seq<string>, header: string): seq<string>
  {
    if ls == [] then [] else if ls[0] == header then ls[1..] else After(ls[1..], header)
  }

  /** What follows `key` on the first line that starts with it. */
  function Value(ls: seq<string>, key: string): Option<string>
  {
    if ls == [] then None else if HasPrefix(ls[0], key) then Some(ls[0][|key|..]) else Value(ls[1..], key)
  }

  /** No line has the character `ch` at position `i`. */
  predicate NoneHas(ls: seq<string>, i: nat, ch: char)
  {
    forall n :: 0 <= n < |ls| ==> i < |ls[n]| ==> ls[n][i] != ch
  }

  lemma {:induction false} AfterSkips(a: seq<string>, header: string, rest: seq<string>, i: nat)
    requires i < |header| && NoneHas(a, i, header[i])
    ensures After(a + ([header] + rest), header) == rest
  {
    if a == [] {
      assert a + ([header] + rest) == [header] + rest;
    } else {
      assert a[0] != header;
      assert (a + ([header] + rest))[1..] == a[1..] + ([header] + rest);
      AfterSkips(a[1..], header, rest, i);
    }
  }

  lemma {:induction false} ValueSkips(a: seq<string>, key: string, v: string, rest: seq<string>)
    requires NoneStarts(a, key)
    ensures Value(a + ([key + v] + rest), key) == Some(v)
  {
    if a == [] {
      PrefixOfConcat(key, v);
      assert a + ([key + v] + rest) == [key + v] + rest;
    } else {
      assert !HasPrefix(a[0], key);
      assert (a + ([key + v] + rest))[1..] == a[1..] + ([key + v] + rest);
      ValueSkips(a[1..], key, v, rest);
    }
  }

  lemma NoneHasStarts(ls: seq<string>, key: string, i: nat)
    requires i < |key| && NoneHas(ls, i, key[i])
    ensures NoneStarts(ls, key)
  {
    forall n | 0 <= n < |ls| ensures !HasPrefix(ls[n], key) {
      if |key| <= |ls[n]| { NotPrefix(ls[n], key, i); }
    }
  }

  /** A text that starts with these lines. */
  lemma LinesStart(text: string, ls: seq<string>, rest: string)
    requires text == Unlines(ls) + rest && OneLineEach(ls) && AtLineStart(rest)
    ensures Lines(text) == ls + Lines(rest)
  {
    LinesUnlines(ls, rest);
  }

  lemma {:induction false} UnlinesConcat(a: seq<string>, b: seq<string>)
    ensures Unlines(a) + Unlines(b) == Unlines(a + b)
  {
    if a == [] {
      assert a + b == b;
    } else {
      assert (a + b)[0] == a[0] && (a + b)[1..] == a[1..] + b;
      UnlinesConcat(a[1..], b);
      Regrouped("\n" + a[0], Unlines(a[1..]), Unlines(b));
    }
  }

  // ----- Addresses -----

  /** The SBI port and the SCP's address, as a file of one of its clients gives them. */
  predicate ClientOfScp(text: string, inst: string)
  {
    var ls := Lines(text);
    && Value(After(ls, "  sbi:"), "      port: ") == Some(Itoa(7777))
    && Value(After(ls, "      scp:"), "      - uri: http://") == Some(ServiceName(inst, SCP, "sbi") + ":" + Itoa(7777))
  }

  lemma PortText()
    ensures Itoa(7777) == "7777"
  {
    assert Decimal(7) == "7" && Decimal(77) == "77" && Decimal(777) == "777";
  }

  lemma ScpName(inst: string)
    ensures "      - uri: http://" + inst + "-scp-sbi:7777" == "      - uri: http://" + (ServiceName(inst, SCP, "sbi") + ":" + "7777")
  {
    assert ServiceName(inst, SCP, "sbi") == inst + ("-" + "scp" + "-" + "sbi");
    assert "-" + "scp" + "-" + "sbi" == "-scp-sbi" && "-scp-sbi" + ":" + "7777" == "-scp-sbi:7777";
    assert ServiceName(inst, SCP, "sbi") + ":" + "7777" == inst + "-scp-sbi:7777";
  }

  lemma SbiPortRead(pre: seq<string>, rest: seq<string>)
    requires NoneHas(pre, 5, ':')
    ensures Value(After(pre + (SbiServer() + rest), "  sbi:"), "      port: ") == Some("7777")
  {
    var a := ["    server:", "    - dev: eth0"];
    assert SbiServer() + rest == ["  sbi:"] + (a + (["      port: 7777"] + rest));
    AfterSkips(pre, "  sbi:", a + (["      port: 7777"] + rest), 5);
    NoneHasStarts(a, "      port: ", 4);
    assert "      port: " + "7777" == "      port: 7777";
    ValueSkips(a, "      port: ", "7777", rest);
  }

  lemma ScpAddressRead(pre: seq<string>, inst: string, rest: seq<string>)
    requires NoneHas(pre, 6, 's')
    ensures Value(After(pre + (ScpClient(inst) + rest), "      scp:"), "      - uri: http://")
         == Some(ServiceName(inst, SCP, "sbi") + ":" + "7777")
  {
    var uri := "      - uri: http://" + inst + "-scp-sbi:7777";
    assert pre + (ScpClient(inst) + rest) == (pre + ["    client:"]) + (["      scp:"] + ([uri] + rest));
    AfterSkips(pre + ["    client:"], "      scp:", [uri] + rest, 6);
    ScpName(inst);
    ValueSkips([], "      - uri: http://", ServiceName(inst, SCP, "sbi") + ":" + "7777", rest);
    assert [] + ([uri] + rest) == [uri] + rest;
  }

  lemma RegroupLines(a: seq<string>, b: seq<string>, c: seq<string>, d: seq<string>)
    ensures (a + b + c) + d == a + (b + (c + d)) && (a + b + c) + d == (a + b) + (c + d)
  {
  }

  /** The lines before the SBI server of a file. */
  predicate Opening(pre: seq<string>)
  {
    OneLineEach(pre) && NoneHas(pre, 5, ':') && NoneHas(pre, 6, 's')
  }

  lemma SbiLines(inst: string)
    requires OneLine(inst)
    ensures OneLineEach(SbiServer()) && OneLineEach(ScpClient(inst)) && NoneHas(SbiServer(), 6, 's')
  {
  }

  lemma OneLineConcat(a: seq<string>, b: seq<string>)
    requires OneLineEach(a) && OneLineEach(b)
    ensures OneLineEach(a + b)
  {
  }

  lemma NoneHasConcat(a: seq<string>, b: seq<string>, i: nat, ch: char)
    requires NoneHas(a, i, ch) && NoneHas(b, i, ch)
    ensures NoneHas(a + b, i, ch)
  {
  }

  lemma ClientRead(text: string, inst: string, pre: seq<string>, rest: string)
    requires OneLine(inst) && Opening(pre) && AtLineStart(rest)
    requires text == Unlines(pre + SbiServer() + ScpClient(inst)) + rest
    ensures ClientOfScp(text, inst)
  {
    var sbi, scp := SbiServer(), ScpClient(inst);
    SbiLines(inst);
    OneLineConcat(pre, sbi);
    OneLineConcat(pre + sbi, scp);
    NoneHasConcat(pre, sbi, 6, 's');
    LinesStart(text, pre + sbi + scp, rest);
    RegroupLines(pre, sbi, scp, Lines(rest));
    SbiPortRead(pre, scp + Lines(rest));
    ScpAddressRead(pre + sbi, inst, Lines(rest));
    PortText();
  }

  lemma PreambleOpens(comp: string)
    requires comp in {"amf", "ausf", "bsf", "nssf", "smf", "pcf", "udm", "udr", "scp"}
    ensures Opening(Preamble(comp))
  {
  }

  /** The text of a file as lines: its opening, the SBI server, the client of SCP, and more. */
  lemma SplitRest(a: seq<string>, b: seq<string>, rest: string)
    ensures Unlines(a + b) + rest == Unlines(a) + (Unlines(b) + rest)
  {
    UnlinesConcat(a, b);
    Regrouped(Unlines(a), Unlines(b), rest);
  }

  lemma UnlinesAtStart(ls: seq<string>, rest: string)
    requires AtLineStart(rest)
    ensures AtLineStart(Unlines(ls) + rest)
  {
    if ls == [] { assert Unlines(ls) + rest == rest; }
  }

  /** Clients of SCP whose files are lines all through. */
  lemma LinesClient(inst: string, pre: seq<string>, more: seq<string>, rest: string)
    requires OneLine(inst) && Opening(pre) && AtLineStart(rest)
    ensures ClientOfScp(Unlines(pre + SbiServer() + ScpClient(inst) + more) + rest, inst)
  {
    SplitRest(pre + SbiServer() + ScpClient(inst), more, rest);
    UnlinesAtStart(more, rest);
    ClientRead(Unlines(pre + SbiServer() + ScpClient(inst) + more) + rest, inst, pre, Unlines(more) + rest);
  }

  lemma AmfClient(inst: string, cfg: Configuration, metrics: bool)
    requires OneLine(inst)
    ensures ClientOfScp(AmfText(inst, cfg, metrics), inst)
  {
    var more := ["  ngap:", "    server:", "    - dev: eth0"];
    var x, y := Unlines(AmfIdentity(cfg)), RenderSlices(AmfBlock(), SliceList(cfg)) + ("\n  security:" + Unlines(AmfTail(inst)));
    PreambleOpens("amf");
    assert AmfMetrics(metrics) != "" && AtLineStart(AmfMetrics(metrics));
    Regroup(AmfServer(inst), AmfMetrics(metrics), x, y);
    LinesClient(inst, Preamble("amf"), more, AmfMetrics(metrics) + (x + y));
  }

  lemma NssfClient(inst: string, cfg: Configuration)
    requires OneLine(inst)
    ensures ClientOfScp(NssfText(inst, cfg), inst)
  {
    var rest := RenderSlices(NssfBlock(inst), SliceList(cfg)) + "\n";
    PreambleOpens("nssf");
    RenderedAtStart(inst, SliceList(cfg), "\n");
    LinesClient(inst, Preamble("nssf"), ["      nsi:"], rest);
  }

  lemma RenderedAtStart(inst: string, xs: seq<Slice>, rest: string)
    requires AtLineStart(rest)
    ensures AtLineStart(RenderSlices(NssfBlock(inst), xs) + rest)
  {
    if xs == [] {
      assert "" + rest == rest;
    } else {
      RenderCons(NssfBlock(inst), xs, rest);
      assert NssfBlock(inst).head[0] == '\n' && RenderSlice(NssfBlock(inst), xs[0])[0] == NssfBlock(inst).head[0];
    }
  }

  lemma PlainClient(inst: string, comp: string, extra: seq<string>)
    requires OneLine(inst) && Opening(Preamble(comp) + extra)
    ensures ClientOfScp(PlainText(inst, comp, extra), inst)
  {
    LinesClient(inst, Preamble(comp) + extra, [""], "");
    assert PlainText(inst, comp, extra) + "" == PlainText(inst, comp, extra);
  }

  lemma PcfClient(inst: string, metrics: bool)
    requires OneLine(inst)
    ensures ClientOfScp(PcfText(inst, metrics), inst)
  {
    var rest := if metrics then Unlines(MetricsLines()) else "";
    PreambleOpens("pcf");
    UnlinesAtStart(if metrics then MetricsLines() else [], "");
    assert rest + "" == rest;
    LinesClient(inst, Preamble("pcf"), [], rest);
    assert Preamble("pcf") + SbiServer() + ScpClient(inst) + [] == Preamble("pcf") + SbiServer() + ScpClient(inst);
  }

  // ----- SMF finds UPF, SCP finds NRF -----

  function BeforeAddress(): seq<string> {
    ["  pfcp:", "    server:", "    - dev: eth0", "    client:"]
  }

  lemma SmfServerForm(inst: string)
    ensures SmfServer(inst)
         == Unlines((Preamble("smf") + SbiServer() + ScpClient(inst))
                    + (BeforeAddress() + ["      upf:", "      - address: " + inst + "-upf-pfcp"]))
  {
    var address := "      - address: " + inst + "-upf-pfcp";
    assert BeforeAddress() + ["      upf:", address]
        == ["  pfcp:", "    server:", "    - dev: eth0", "    client:", "      upf:", address];
  }

  lemma SmfForm(inst: string, metrics: bool)
    ensures SmfText(inst, metrics) == SmfServer(inst) + (MetricsOrBlank(metrics) + SmfRest())
  {
  }

  lemma StartConcat(a: string, b: string)
    requires a != "" && a[0] == '\n'
    ensures AtLineStart(a + b)
  {
  }

  lemma MetricsStart(metrics: bool)
    ensures MetricsOrBlank(metrics) != "" && MetricsOrBlank(metrics)[0] == '\n'
  {
  }

  lemma SmfFileRead(inst: string, text: string, rest: string)
    requires OneLine(inst) && AtLineStart(rest)
    requires text == Unlines((Preamble("smf") + SbiServer() + ScpClient(inst))
                             + (BeforeAddress() + ["      upf:", "      - address: " + inst + "-upf-pfcp"])) + rest
    ensures ClientOfScp(text, inst)
    ensures Value(After(Lines(text), "      upf:"), "      - address: ") == Some(ServiceName(inst, UPF, "pfcp"))
  {
    PreambleOpens("smf");
    LinesClient(inst, Preamble("smf"), BeforeAddress() + ["      upf:", "      - address: " + inst + "-upf-pfcp"], rest);
    UpfAddressRead(inst, Preamble("smf") + SbiServer() + ScpClient(inst), BeforeAddress(), "      - address: " + inst + "-upf-pfcp", rest);
  }

  lemma SmfClient(inst: string, metrics: bool)
    requires OneLine(inst)
    ensures ClientOfScp(SmfText(inst, metrics), inst)
    ensures Value(After(Lines(SmfText(inst, metrics)), "      upf:"), "      - address: ") == Some(ServiceName(inst, UPF, "pfcp"))
  {
    SmfForm(inst, metrics);
    SmfServerForm(inst);
    MetricsStart(metrics);
    StartConcat(MetricsOrBlank(metrics), SmfRest());
    SmfFileRead(inst, SmfText(inst, metrics), MetricsOrBlank(metrics) + SmfRest());
  }

  lemma UpfName(inst: string)
    ensures "      - address: " + inst + "-upf-pfcp" == "      - address: " + ServiceName(inst, UPF, "pfcp")
  {
    assert ServiceName(inst, UPF, "pfcp") == inst + ("-" + "upf" + "-" + "pfcp");
    assert "-" + "upf" + "-" + "pfcp" == "-upf-pfcp";
  }

  /** The lines before the address of UPF. */
  predicate BeforeUpf(pre: seq<string>)
  {
    OneLineEach(pre) && NoneHas(pre, 7, 'p')
  }

  lemma SmfBeforeUpf(inst: string)
    requires OneLine(inst)
    ensures BeforeUpf(Preamble("smf") + SbiServer() + ScpClient(inst))
    ensures BeforeUpf(BeforeAddress())
  {
  }

  lemma UpfAddressRead(inst: string, pre: seq<string>, more: seq<string>, address: string, rest: string)
    requires OneLine(inst) && AtLineStart(rest) && address == "      - address: " + inst + "-upf-pfcp"
    requires pre == Preamble("smf") + SbiServer() + ScpClient(inst)
    requires more == BeforeAddress()
    ensures Value(After(Lines(Unlines(pre + (more + ["      upf:", address])) + rest), "      upf:"), "      - address: ")
         == Some(ServiceName(inst, UPF, "pfcp"))
  {
    SmfBeforeUpf(inst);
    OneLineConcat(pre, more);
    NoneHasConcat(pre, more, 7, 'p');
    OneLineConcat(pre + more, ["      upf:", address]);
    assert pre + (more + ["      upf:", address]) == (pre + more) + ["      upf:", address];
    LinesStart(Unlines((pre + more) + ["      upf:", address]) + rest, (pre + more) + ["      upf:", address], rest);
    assert ((pre + more) + ["      upf:", address]) + Lines(rest) == (pre + more) + (["      upf:"] + ([address] + Lines(rest)));
    AfterSkips(pre + more, "      upf:", [address] + Lines(rest), 7);
    UpfName(inst);
    ValueSkips([], "      - address: ", ServiceName(inst, UPF, "pfcp"), Lines(rest));
    assert [] + ([address] + Lines(rest)) == [address] + Lines(rest);
  }

  lemma NrfName(inst: string)
    ensures "      - uri: http://" + inst + "-nrf-sbi:7777" == "      - uri: http://" + (ServiceName(inst, NRF, "sbi") + ":" + "7777")
  {
    assert ServiceName(inst, NRF, "sbi") == inst + ("-" + "nrf" + "-" + "sbi");
    assert "-" + "nrf" + "-" + "sbi" == "-nrf-sbi" && "-nrf-sbi" + ":" + "7777" == "-nrf-sbi:7777";
    assert ServiceName(inst, NRF, "sbi") + ":" + "7777" == inst + "-nrf-sbi:7777";
  }

  lemma ScpOpening()
    ensures Opening(Preamble("scp")) && NoneHas(Preamble("scp") + SbiServer() + ["    client:"], 6, 'n')
  {
  }

  /** SCP serves its SBI and finds NRF. */
  lemma ScpRead(inst: string)
    requires OneLine(inst)
    ensures var ls := Lines(ScpText(inst));
      && Value(After(ls, "  sbi:"), "      port: ") == Some(Itoa(7777))
      && Value(After(ls, "      nrf:"), "      - uri: http://") == Some(ServiceName(inst, NRF, "sbi") + ":" + Itoa(7777))
  {
    var pre, sbi, uri := Preamble("scp"), SbiServer(), "      - uri: http://" + inst + "-nrf-sbi:7777";
    var more := ["    client:", "      nrf:", uri, ""];
    ScpOpening();
    SbiLines(inst);
    OneLineConcat(pre, sbi);
    OneLineConcat(pre + sbi, more);
    assert ScpText(inst) + "" == ScpText(inst) && (pre + sbi + more) + Lines("") == pre + sbi + more;
    LinesStart(ScpText(inst), pre + sbi + more, "");
    assert pre + sbi + more == pre + (sbi + more) == (pre + sbi + ["    client:"]) + (["      nrf:"] + ([uri] + [""]));
    SbiPortRead(pre, more);
    AfterSkips(pre + sbi + ["    client:"], "      nrf:", [uri] + [""], 6);
    NrfName(inst);
    ValueSkips([], "      - uri: http://", ServiceName(inst, NRF, "sbi") + ":" + "7777", [""]);
    assert [] + ([uri] + [""]) == [uri] + [""];
    PortText();
  }

  // ----- Values of the spec -----

  /** The other texts of a configuration are single lines. */
  predicate PlainFields(cfg: Configuration)
  {
    OneLine(cfg.mcc) && OneLine(cfg.mnc) && OneLine(cfg.region) && OneLine(cfg.set_) && OneLine(cfg.tac)
  }

  /** The PLMN of a file, in quotes. */
  predicate ShowsPlmn(ls: seq<string>, cfg: Configuration)
  {
    Value(ls, "        mcc: \"") == Some(cfg.mcc + "\"") && Value(ls, "        mnc: \"") == Some(cfg.mnc + "\"")
  }

  lemma PlmnRead(pre: seq<string>, cfg: Configuration, rest: seq<string>)
    requires NoneHas(pre, 8, 'm')
    ensures ShowsPlmn(pre + (PlmnLines(cfg) + rest), cfg)
  {
    var id, mcc, mnc := ["      plmn_id:"], "        mcc: \"" + cfg.mcc + "\"", "        mnc: \"" + cfg.mnc + "\"";
    assert mcc == "        mcc: \"" + (cfg.mcc + "\"") && mnc == "        mnc: \"" + (cfg.mnc + "\"");
    assert pre + (PlmnLines(cfg) + rest) == (pre + id) + ([mcc] + ([mnc] + rest)) == (pre + id + [mcc]) + ([mnc] + rest);
    PlmnStarts(pre, id, mcc);
    ValueSkips(pre + id, "        mcc: \"", cfg.mcc + "\"", [mnc] + rest);
    ValueSkips(pre + id + [mcc], "        mnc: \"", cfg.mnc + "\"", rest);
  }

  lemma PlmnStarts(pre: seq<string>, id: seq<string>, mcc: string)
    requires NoneHas(pre, 8, 'm') && id == ["      plmn_id:"] && |mcc| > 13 && mcc[..13] == "        mcc: "
    ensures NoneStarts(pre + id, "        mcc: \"") && NoneStarts(pre + id + [mcc], "        mnc: \"")
  {
    NoneHasStarts(pre, "        mcc: \"", 8);
    NoneHasStarts(pre, "        mnc: \"", 8);
    NotPrefix(id[0], "        mcc: \"", 6);
    NotPrefix(id[0], "        mnc: \"", 6);
    assert mcc[9] == mcc[..13][9] == 'c';
    NotPrefix(mcc, "        mnc: \"", 9);
  }

  /** The lines of the AMF's identity. */
  function Guami(cfg: Configuration): seq<string>
  {
    ["    -", "      amf_id:", "        region: " + cfg.region, "        set: " + cfg.set_]
  }

  lemma IdentityParts(cfg: Configuration, rest: seq<string>)
    ensures var plmn := PlmnLines(cfg); var tac := "      - " + cfg.tac;
      AmfIdentity(cfg) + rest
      == Guami(cfg) + (plmn + (["  tai:"] + (["    -"] + (plmn + (["      tac:"] + ([tac] + (["  plmn_support:"] + (["    -"]
         + (plmn + (["      s_nssai:"] + rest))))))))))
  {
  }

  lemma IdentityStarts(cfg: Configuration)
    ensures var plmn, tac := PlmnLines(cfg), "      - " + cfg.tac;
      && NoneHas(Guami(cfg), 8, 'm') && NoneHas(Guami(cfg) + plmn, 2, 't')
      && NoneHas(Guami(cfg) + plmn + ["  tai:", "    -"] + plmn, 6, 't')
      && NoneHas(Guami(cfg) + plmn + ["  tai:", "    -"] + plmn + ["      tac:", tac], 2, 'p')
      && NoneHas(["    -"], 8, 'm')
  {
  }

  lemma GuamiRead(cfg: Configuration, rest: seq<string>)
    ensures Value(Guami(cfg) + rest, "        region: ") == Some(cfg.region)
    ensures Value(Guami(cfg) + rest, "        set: ") == Some(cfg.set_)
  {
    var head, region, set_ := ["    -", "      amf_id:"], "        region: " + cfg.region, "        set: " + cfg.set_;
    assert Guami(cfg) + rest == head + ([region] + ([set_] + rest)) == (head + [region]) + ([set_] + rest);
    NoneHasStarts(head, "        region: ", 6);
    NoneHasStarts(head, "        set: ", 6);
    NotPrefix(region, "        set: ", 8);
    ValueSkips(head, "        region: ", cfg.region, [set_] + rest);
    ValueSkips(head + [region], "        set: ", cfg.set_, rest);
  }

  lemma TaiRead(g: seq<string>, plmn: seq<string>, cfg: Configuration, second: seq<string>)
    requires NoneHas(g + plmn, 2, 't') && plmn == PlmnLines(cfg)
    ensures ShowsPlmn(After(g + (plmn + (["  tai:"] + (["    -"] + (plmn + second)))), "  tai:"), cfg)
  {
    var dash := ["    -"];
    var rest := dash + (plmn + second);
    RegroupTwo(g, plmn, ["  tai:"] + rest);
    AfterSkips(g + plmn, "  tai:", rest, 2);
    PlmnRead(dash, cfg, second);
  }

  lemma RegroupTwo(a: seq<string>, b: seq<string>, c: seq<string>)
    ensures a + (b + c) == (a + b) + c
  {
  }

  lemma RegroupFive(a: seq<string>, b: seq<string>, x: string, y: string, c: seq<string>, d: seq<string>)
    ensures a + (b + ([x] + ([y] + (c + d)))) == (a + b + [x, y] + c) + d
  {
  }

  lemma TacRead(pre: seq<string>, tac: string, third: seq<string>)
    requires NoneHas(pre, 6, 't')
    ensures Value(After(pre + (["      tac:"] + (["      - " + tac] + third)), "      tac:"), "      - ") == Some(tac)
  {
    var line := "      - " + tac;
    AfterSkips(pre, "      tac:", [line] + third, 6);
    ValueSkips([], "      - ", tac, third);
    assert [] + ([line] + third) == [line] + third;
  }

  lemma SupportRead(pre: seq<string>, cfg: Configuration, plmn: seq<string>, rest: seq<string>)
    requires NoneHas(pre, 2, 'p') && plmn == PlmnLines(cfg)
    ensures ShowsPlmn(After(pre + (["  plmn_support:"] + (["    -"] + (plmn + rest))), "  plmn_support:"), cfg)
  {
    AfterSkips(pre, "  plmn_support:", ["    -"] + (plmn + rest), 2);
    PlmnRead(["    -"], cfg, rest);
  }

  lemma RegroupSeven(a: seq<string>, b: seq<string>, x: string, y: string, c: seq<string>, u: string, v: string, d: seq<string>)
    ensures a + (b + ([x] + ([y] + (c + ([u] + ([v] + d)))))) == (a + b + [x, y] + c + [u, v]) + d
  {
  }

  /** What the AMF file says: region and set, the PLMN in its three places, and the TAC. */
  ghost predicate IdentityShows(ls: seq<string>, cfg: Configuration)
  {
    && Value(ls, "        region: ") == Some(cfg.region) && Value(ls, "        set: ") == Some(cfg.set_)
    && ShowsPlmn(ls, cfg) && ShowsPlmn(After(ls, "  tai:"), cfg) && ShowsPlmn(After(ls, "  plmn_support:"), cfg)
    && Value(After(ls, "      tac:"), "      - ") == Some(cfg.tac)
  }

  lemma IdentityRead(cfg: Configuration, rest: seq<string>)
    ensures IdentityShows(AmfIdentity(cfg) + rest, cfg)
  {
    IdentityParts(cfg, rest);
    IdentityStarts(cfg);
    PartsRead(cfg, PlmnLines(cfg), Guami(cfg), "      - " + cfg.tac, ["      s_nssai:"] + rest);
  }

  lemma PartsRead(cfg: Configuration, plmn: seq<string>, g: seq<string>, tac: string, rest: seq<string>)
    requires plmn == PlmnLines(cfg) && g == Guami(cfg) && tac == "      - " + cfg.tac
    requires NoneHas(g, 8, 'm') && NoneHas(g + plmn, 2, 't') && NoneHas(g + plmn + ["  tai:", "    -"] + plmn, 6, 't')
    requires NoneHas(g + plmn + ["  tai:", "    -"] + plmn + ["      tac:", tac], 2, 'p')
    ensures IdentityShows(g + (plmn + (["  tai:"] + (["    -"] + (plmn + (["      tac:"] + ([tac] + (["  plmn_support:"] + (["    -"]
      + (plmn + rest))))))))), cfg)
  {
    var third := ["  plmn_support:"] + (["    -"] + (plmn + rest));
    var second := ["      tac:"] + ([tac] + third);
    var first := ["  tai:"] + (["    -"] + (plmn + second));
    GuamiRead(cfg, plmn + first);
    PlmnRead(g, cfg, first);
    TaiRead(g, plmn, cfg, second);
    RegroupFive(g, plmn, "  tai:", "    -", plmn, second);
    TacRead(g + plmn + ["  tai:", "    -"] + plmn, cfg.tac, third);
    RegroupSeven(g, plmn, "  tai:", "    -", plmn, "      tac:", tac, third);
    SupportRead(g + plmn + ["  tai:", "    -"] + plmn + ["      tac:", tac], cfg, plmn, rest);
  }

  /** The lines of the AMF file before its identity. */
  function BeforeGuami(inst: string, metrics: bool): seq<string>
  {
    Preamble("amf") + SbiServer() + ScpClient(inst) + ["  ngap:", "    server:", "    - dev: eth0"]
    + (if metrics then MetricsLines() else [])
  }

  lemma AmfLinesStart(inst: string, metrics: bool)
    requires OneLine(inst)
    ensures OneLineEach(BeforeGuami(inst, metrics)) && NoneHas(BeforeGuami(inst, metrics), 3, 'u')
  {
  }

  lemma AmfHeadLines(inst: string, cfg: Configuration, metrics: bool)
    ensures AmfHead(inst, cfg, metrics) == Unlines(BeforeGuami(inst, metrics) + (["  guami:"] + AmfIdentity(cfg)))
  {
    var server := Preamble("amf") + SbiServer() + ScpClient(inst) + ["  ngap:", "    server:", "    - dev: eth0"];
    var m := if metrics then MetricsLines() else [];
    UnlinesConcat(server, m);
    UnlinesConcat(["  guami:"], AmfIdentity(cfg));
    UnlinesConcat(server + m, ["  guami:"] + AmfIdentity(cfg));
    assert ["  guami:"][1..] == [] && Unlines(["  guami:"]) == "\n" + "  guami:" + "" == "\n  guami:";
    HeadGrouped(Unlines(server), Unlines(m), "\n  guami:", Unlines(AmfIdentity(cfg)));
  }

  lemma HeadGrouped(a: string, b: string, c: string, d: string)
    ensures (a + (b + c)) + d == (a + b) + (c + d)
  {
  }

  lemma IdentityIsLines(cfg: Configuration)
    requires PlainFields(cfg)
    ensures OneLineEach(AmfIdentity(cfg))
  {
  }

  /** The AMF file says what the configuration says, whatever slices it has. */
  lemma AmfFileShows(inst: string, cfg: Configuration, metrics: bool)
    requires OneLine(inst) && PlainFields(cfg)
    ensures IdentityShows(After(Lines(AmfText(inst, cfg, metrics)), "  guami:"), cfg)
  {
    var before, identity := BeforeGuami(inst, metrics), AmfIdentity(cfg);
    var rest := RenderSlices(AmfBlock(), SliceList(cfg)) + ("\n  security:" + Unlines(AmfTail(inst)));
    AmfHeadLines(inst, cfg, metrics);
    AmfLinesStart(inst, metrics);
    IdentityIsLines(cfg);
    AmfRestStarts(SliceList(cfg), "\n  security:" + Unlines(AmfTail(inst)));
    OneLineConcat(["  guami:"], identity);
    OneLineConcat(before, ["  guami:"] + identity);
    LinesStart(AmfText(inst, cfg, metrics), before + (["  guami:"] + identity), rest);
    GuamiGrouped(before, identity, Lines(rest));
    AfterSkips(before, "  guami:", identity + Lines(rest), 3);
    IdentityRead(cfg, Lines(rest));
  }

  lemma GuamiGrouped(a: seq<string>, b: seq<string>, c: seq<string>)
    ensures (a + (["  guami:"] + b)) + c == a + (["  guami:"] + (b + c))
  {
  }

  lemma AmfRestStarts(xs: seq<Slice>, rest: string)
    requires AtLineStart(rest)
    ensures AtLineStart(RenderSlices(AmfBlock(), xs) + rest)
  {
    if xs == [] {
      assert "" + rest == rest;
    } else {
      RenderCons(AmfBlock(), xs, rest);
      assert RenderSlice(AmfBlock(), xs[0])[0] == '\n';
    }
  }

  lemma NrfStarts()
    ensures NoneStarts(Preamble("nrf") + ["  serving:", "    -", "      plmn_id:"], "        mcc: ")
    ensures NoneStarts(Preamble("nrf") + ["  serving:", "    -", "      plmn_id:"], "        mnc: ")
    ensures OneLineEach(Preamble("nrf") + ["  serving:", "    -", "      plmn_id:"])
  {
    var pre := Preamble("nrf") + ["  serving:", "    -", "      plmn_id:"];
    assert NoneHas(pre, 7, ' ');
    NoneHasStarts(pre, "        mcc: ", 7);
    NoneHasStarts(pre, "        mnc: ", 7);
  }

  /** The NRF file says the PLMN. */
  lemma NrfFileShows(mcc: string, mnc: string)
    requires OneLine(mcc) && OneLine(mnc)
    ensures var ls := Lines(NrfText(mcc, mnc)); Value(ls, "        mcc: ") == Some(mcc) && Value(ls, "        mnc: ") == Some(mnc)
  {
    var pre, l1, l2 := Preamble("nrf") + ["  serving:", "    -", "      plmn_id:"], "        mcc: " + mcc, "        mnc: " + mnc;
    var rest := SbiServer() + [""];
    var ls := pre + ([l1] + ([l2] + rest));
    assert Preamble("nrf") + ["  serving:", "    -", "      plmn_id:", l1, l2] + SbiServer() + [""] == ls;
    assert NrfText(mcc, mnc) + "" == NrfText(mcc, mnc) && ls + Lines("") == ls;
    NrfStarts();
    OneLineConcat(pre, [l1] + ([l2] + rest));
    LinesStart(NrfText(mcc, mnc), ls, "");
    ValueSkips(pre, "        mcc: ", mcc, [l2] + rest);
    NotPrefix(l1, "        mnc: ", 9);
    assert ls == (pre + [l1]) + ([l2] + rest);
    ValueSkips(pre + [l1], "        mnc: ", mnc, rest);
  }

  lemma UpfStarts()
    ensures var pre := Preamble("upf") + ["  pfcp:", "    server:", "    - dev: eth0", "    client:"];
      OneLineEach(pre) && NoneHas(pre, 3, 't')
  {
  }

  lemma RegroupGtpu(pre: seq<string>, x: string, y: string, z: string, rest: seq<string>)
    ensures (pre + [x, y, z]) + rest == pre + ([x] + ([y] + ([z] + rest)))
  {
  }

  lemma GtpuRead(text: string, pre: seq<string>, dev: string, rest: string)
    requires OneLineEach(pre) && NoneHas(pre, 3, 't') && OneLine(dev) && AtLineStart(rest)
    requires text == Unlines(pre + ["  gtpu:", "    server:", "    - dev: " + dev]) + rest
    ensures Value(After(Lines(text), "  gtpu:"), "    - dev: ") == Some(dev)
  {
    var line := "    - dev: " + dev;
    OneLineConcat(pre, ["  gtpu:", "    server:", line]);
    LinesStart(text, pre + ["  gtpu:", "    server:", line], rest);
    RegroupGtpu(pre, "  gtpu:", "    server:", line, Lines(rest));
    AfterSkips(pre, "  gtpu:", ["    server:"] + ([line] + Lines(rest)), 3);
    NotPrefix("    server:", "    - dev: ", 4);
    ValueSkips(["    server:"], "    - dev: ", dev, Lines(rest));
  }

  function BeforeGtpu(): seq<string> {
    Preamble("upf") + ["  pfcp:", "    server:", "    - dev: eth0", "    client:"]
  }

  function UpfRest(metrics: bool): string
  {
    MetricsOrBlank(metrics)
    + Unlines(["  session:", "    -", "      dev: ogstun", "      dnn: internet", "      gateway: 10.45.0.1",
               "      subnet: 10.45.0.0/16", ""])
  }

  lemma UpfLines(dev: string)
    ensures Preamble("upf") + ["  pfcp:", "    server:", "    - dev: eth0", "    client:", "  gtpu:", "    server:", "    - dev: " + dev]
         == BeforeGtpu() + ["  gtpu:", "    server:", "    - dev: " + dev]
  {
  }

  lemma UpfForm(dev: string, metrics: bool)
    ensures UpfText(dev, metrics)
         == Unlines(BeforeGtpu() + ["  gtpu:", "    server:", "    - dev: " + FillText(dev, "eth0")]) + UpfRest(metrics)
  {
    UpfLines(FillText(dev, "eth0"));
  }

  lemma UpfRestStarts(metrics: bool)
    ensures AtLineStart(UpfRest(metrics))
  {
    MetricsStart(metrics);
  }

  /** The UPF file says the GTP-U device, or the default one if none is given. */
  lemma UpfFileShows(dev: string, metrics: bool)
    requires OneLine(dev)
    ensures Value(After(Lines(UpfText(dev, metrics)), "  gtpu:"), "    - dev: ") == Some(if dev == "" then "eth0" else dev)
  {
    UpfStarts();
    UpfForm(dev, metrics);
    UpfRestStarts(metrics);
    GtpuRead(UpfText(dev, metrics), BeforeGtpu(), FillText(dev, "eth0"), UpfRest(metrics));
  }

  // ----- Component by component -----

  predicate CallsScp(c: Component)
  {
    c in {AMF, AUSF, BSF, NSSF, SMF, PCF, UDM, UDR}
  }

  predicate Inner(l: string)
  {
    OneLine(l) && 6 < |l| && l[5] != ':' && l[6] != 's'
  }

  lemma HnetShortLines(n: nat)
    requires n < |HnetLines()| && (n == 0 || n % 3 != 0)
    ensures Inner(HnetLines()[n])
  {
    if n % 3 == 1 {
      assert HnetLines()[n][5] == 'd' && HnetLines()[n][6] == ':';
    } else if n % 3 == 2 {
      assert HnetLines()[n][5] == 'c' && HnetLines()[n][6] == 'h';
    }
  }

  lemma KeyIsInner(name: string)
    requires OneLine(name)
    ensures Inner(HnetKey(name))
  {
    var path := "/opt/open5gs" + "/etc/open5gs" + "/hnet/" + name;
    assert OneLine("/opt/open5gs") && OneLine("/etc/open5gs") && OneLine("/hnet/");
    assert HnetKey(name)[5] == "    key: "[5] == 'e' && HnetKey(name)[6] == "    key: "[6] == 'y';
  }

  lemma HnetKeys()
    ensures var ls := HnetLines(); |ls| == 19 && forall i :: 1 <= i < 7 ==> Inner(ls[3 * i])
  {
    KeyIsInner("curve25519-1.key");
    KeyIsInner("secp256r1-2.key");
    KeyIsInner("curve25519-3.key");
    KeyIsInner("secp256r1-4.key");
    KeyIsInner("curve25519-5.key");
    KeyIsInner("secp256r1-6.key");
  }

  lemma HnetOpens()
    ensures Opening(HnetLines())
  {
    var ls := HnetLines();
    HnetKeys();
    forall n | 0 <= n < |ls| ensures Inner(ls[n]) {
      if n == 0 || n % 3 != 0 { HnetShortLines(n); } else { assert Inner(ls[3 * (n / 3)]); }
    }
  }

  lemma UdmOpens()
    ensures Opening(Preamble("udm") + HnetLines())
  {
    PreambleOpens("udm");
    HnetOpens();
    OneLineConcat(Preamble("udm"), HnetLines());
    NoneHasConcat(Preamble("udm"), HnetLines(), 5, ':');
    NoneHasConcat(Preamble("udm"), HnetLines(), 6, 's');
  }

  lemma NothingExtra(comp: string)
    requires comp in {"ausf", "bsf", "udr"}
    ensures Opening(Preamble(comp) + [])
  {
    PreambleOpens(comp);
    assert Preamble(comp) + [] == Preamble(comp);
  }

  /** The file of a component that is found under its key. */
  predicate FileIs(d: Data, name: string, text: string)
  {
    name in d && d[name] == text
  }

  /** The text of the file of a component but AMF, NSSF, WebUI and MongoDB. */
  function TextOf(i: Inputs, c: Component): string
  {
    match c
    case NRF => NrfText(i.mcc, i.mnc)
    case SCP => ScpText(i.inst)
    case SMF => SmfText(i.inst, i.metrics)
    case PCF => PcfText(i.inst, i.metrics)
    case UPF => UpfText(i.gtpuDev, i.metrics)
    case UDM => PlainText(i.inst, "udm", HnetLines())
    case _ => PlainText(i.inst, Lower(c), [])
  }

  lemma FileOfPlain(i: Inputs, c: Component)
    requires c in {AUSF, BSF, UDM, UDR}
    ensures FileIs(PlainData(i, c), Lower(c) + ".yaml", TextOf(i, c))
  {
    match c
    case AUSF => assert "ausf" + ".yaml" == "ausf.yaml";
    case BSF => assert "bsf" + ".yaml" == "bsf.yaml";
    case UDM => assert "udm" + ".yaml" == "udm.yaml";
    case UDR => assert "udr" + ".yaml" == "udr.yaml";
  }

  lemma FileOfOther(i: Inputs, c: Component)
    requires c in {NRF, SCP, UPF}
    ensures FileIs(PlainData(i, c), Lower(c) + ".yaml", TextOf(i, c))
  {
    match c
    case NRF => assert "nrf" + ".yaml" == "nrf.yaml";
    case SCP => assert "scp" + ".yaml" == "scp.yaml";
    case UPF => assert "upf" + ".yaml" == "upf.yaml";
  }

  lemma FileOfMetered(i: Inputs, c: Component)
    requires c == SMF || c == PCF
    ensures FileIs(PlainData(i, c), Lower(c) + ".yaml", TextOf(i, c))
  {
    match c
    case SMF => assert "smf" + ".yaml" == "smf.yaml";
    case PCF => assert "pcf" + ".yaml" == "pcf.yaml";
  }

  lemma FileOf(i: Inputs, c: Component)
    requires c !in {AMF, NSSF, WebUI, MongoDB}
    ensures FileIs(PlainData(i, c), Lower(c) + ".yaml", TextOf(i, c))
  {
    if c in {NRF, SCP, UPF} {
      FileOfOther(i, c);
    } else if c == SMF || c == PCF {
      FileOfMetered(i, c);
    } else {
      FileOfPlain(i, c);
    }
  }

  lemma AmfFile(r: Core)
    ensures FileIs(ConfigData(r, AMF), Lower(AMF) + ".yaml", AmfText(r.who.name, r.spec.configuration, Metrics(r, AMF)))
  {
    assert "amf" + ".yaml" == "amf.yaml";
  }

  lemma NssfFile(r: Core)
    ensures FileIs(ConfigData(r, NSSF), Lower(NSSF) + ".yaml", NssfText(r.who.name, r.spec.configuration))
  {
    assert "nssf" + ".yaml" == "nssf.yaml";
  }

  /** A component finds a file with its own name, which says where it is reached and where SCP is. */
  ghost predicate ReachesScp(d: Data, file: string, inst: string)
  {
    file in d && ClientOfScp(d[file], inst)
  }

  lemma Reached(d: Data, file: string, text: string, inst: string)
    requires FileIs(d, file, text) && ClientOfScp(text, inst)
    ensures ReachesScp(d, file, inst)
  {
  }

  lemma TextReaches(i: Inputs, c: Component)
    requires OneLine(i.inst) && CallsScp(c) && c != AMF && c != NSSF
    ensures ClientOfScp(TextOf(i, c), i.inst)
  {
    match c
    case SMF => SmfClient(i.inst, i.metrics);
    case PCF => PcfClient(i.inst, i.metrics);
    case UDM => UdmOpens(); PlainClient(i.inst, "udm", HnetLines());
    case AUSF => NothingExtra("ausf"); PlainClient(i.inst, "ausf", []);
    case BSF => NothingExtra("bsf"); PlainClient(i.inst, "bsf", []);
    case UDR => NothingExtra("udr"); PlainClient(i.inst, "udr", []);
  }

  lemma AmfReaches(r: Core)
    requires OneLine(r.who.name)
    ensures ReachesScp(ConfigData(r, AMF), Lower(AMF) + ".yaml", r.who.name)
  {
    AmfFile(r);
    AmfClient(r.who.name, r.spec.configuration, Metrics(r, AMF));
    Reached(ConfigData(r, AMF), Lower(AMF) + ".yaml", AmfText(r.who.name, r.spec.configuration, Metrics(r, AMF)), r.who.name);
  }

  lemma NssfReaches(r: Core)
    requires OneLine(r.who.name)
    ensures ReachesScp(ConfigData(r, NSSF), Lower(NSSF) + ".yaml", r.who.name)
  {
    NssfFile(r);
    NssfClient(r.who.name, r.spec.configuration);
    Reached(ConfigData(r, NSSF), Lower(NSSF) + ".yaml", NssfText(r.who.name, r.spec.configuration), r.who.name);
  }

  lemma PlainReaches(i: Inputs, c: Component)
    requires OneLine(i.inst) && CallsScp(c) && c != AMF && c != NSSF
    ensures ReachesScp(PlainData(i, c), Lower(c) + ".yaml", i.inst)
  {
    FileOf(i, c);
    TextReaches(i, c);
    Reached(PlainData(i, c), Lower(c) + ".yaml", TextOf(i, c), i.inst);
  }

  lemma PlainConfig(r: Core, c: Component)
    requires c != AMF && c != NSSF
    ensures ConfigData(r, c) == PlainData(InputsOf(r, c), c) && InputsOf(r, c).inst == r.who.name
  {
  }

  /** The files of the components that call others through SCP say where it is, and where they are reached. */
  lemma FilesReachScp(r: Core, c: Component)
    requires OneLine(r.who.name) && CallsScp(c)
    ensures ReachesScp(ConfigData(r, c), Lower(c) + ".yaml", r.who.name)
  {
    if c == AMF {
      AmfReaches(r);
    } else if c == NSSF {
      NssfReaches(r);
    } else {
      PlainConfig(r, c);
      PlainReaches(InputsOf(r, c), c);
    }
  }

  /** The value after a key in a file, below a header. */
  predicate FileSays(d: Data, file: string, header: string, key: string, value: string)
  {
    file in d && Value(After(Lines(d[file]), header), key) == Some(value)
  }

  lemma Says(i: Inputs, c: Component, text: string, header: string, key: string, value: string)
    requires c !in {AMF, NSSF, WebUI, MongoDB} && text == TextOf(i, c)
    requires Value(After(Lines(text), header), key) == Some(value)
    ensures FileSays(PlainData(i, c), Lower(c) + ".yaml", header, key, value)
  {
    FileOf(i, c);
  }

  lemma ScpFindsNrf(i: Inputs)
    requires OneLine(i.inst)
    ensures FileSays(PlainData(i, SCP), Lower(SCP) + ".yaml", "      nrf:", "      - uri: http://", ServiceName(i.inst, NRF, "sbi") + ":" + Itoa(7777))
  {
    assert TextOf(i, SCP) == ScpText(i.inst);
    ScpRead(i.inst);
    Says(i, SCP, TextOf(i, SCP), "      nrf:", "      - uri: http://", ServiceName(i.inst, NRF, "sbi") + ":" + Itoa(7777));
  }

  lemma SmfTextIs(i: Inputs)
    ensures TextOf(i, SMF) == SmfText(i.inst, i.metrics)
  {
  }

  lemma SmfFindsUpf(i: Inputs)
    requires OneLine(i.inst)
    ensures FileSays(PlainData(i, SMF), Lower(SMF) + ".yaml", "      upf:", "      - address: ", ServiceName(i.inst, UPF, "pfcp"))
  {
    SmfTextIs(i);
    SmfClient(i.inst, i.metrics);
    Says(i, SMF, TextOf(i, SMF), "      upf:", "      - address: ", ServiceName(i.inst, UPF, "pfcp"));
  }

  /** SCP finds NRF, and SMF finds UPF. */
  lemma FilesReachNrfAndUpf(r: Core)
    requires OneLine(r.who.name)
    ensures FileSays(ConfigData(r, SCP), Lower(SCP) + ".yaml", "      nrf:", "      - uri: http://",
      ServiceName(r.who.name, NRF, "sbi") + ":" + Itoa(7777))
    ensures FileSays(ConfigData(r, SMF), Lower(SMF) + ".yaml", "      upf:", "      - address: ", ServiceName(r.who.name, UPF, "pfcp"))
  {
    PlainConfig(r, SCP);
    PlainConfig(r, SMF);
    ScpFindsNrf(InputsOf(r, SCP));
    SmfFindsUpf(InputsOf(r, SMF));
  }

  /** The AMF file says what the configuration says. */
  lemma AmfFileShowsSpec(r: Core)
    requires OneLine(r.who.name) && PlainFields(r.spec.configuration)
    ensures var d := ConfigData(r, AMF);
      Lower(AMF) + ".yaml" in d && IdentityShows(After(Lines(d[Lower(AMF) + ".yaml"]), "  guami:"), r.spec.configuration)
  {
    AmfFile(r);
    AmfFileShows(r.who.name, r.spec.configuration, Metrics(r, AMF));
  }

  lemma NrfFileOf(i: Inputs, text: string)
    requires text == TextOf(i, NRF)
    ensures FileIs(PlainData(i, NRF), Lower(NRF) + ".yaml", text)
  {
    FileOf(i, NRF);
  }

  /** The NRF file says the PLMN. */
  lemma NrfFileShowsSpec(r: Core)
    requires OneLine(r.spec.configuration.mcc) && OneLine(r.spec.configuration.mnc)
    ensures Lower(NRF) + ".yaml" in ConfigData(r, NRF)
    ensures var ls := Lines(ConfigData(r, NRF)[Lower(NRF) + ".yaml"]);
      Value(ls, "        mcc: ") == Some(r.spec.configuration.mcc) && Value(ls, "        mnc: ") == Some(r.spec.configuration.mnc)
  {
    PlainConfig(r, NRF);
    NrfFileOf(InputsOf(r, NRF), NrfText(r.spec.configuration.mcc, r.spec.configuration.mnc));
    NrfFileShows(r.spec.configuration.mcc, r.spec.configuration.mnc);
  }

  lemma UpfSaysDevice(i: Inputs)
    requires OneLine(i.gtpuDev)
    ensures FileSays(PlainData(i, UPF), Lower(UPF) + ".yaml", "  gtpu:", "    - dev: ", if i.gtpuDev == "" then "eth0" else i.gtpuDev)
  {
    assert TextOf(i, UPF) == UpfText(i.gtpuDev, i.metrics);
    UpfFileShows(i.gtpuDev, i.metrics);
    Says(i, UPF, TextOf(i, UPF), "  gtpu:", "    - dev: ", if i.gtpuDev == "" then "eth0" else i.gtpuDev);
  }

  /** The UPF file says the GTP-U device, or the default one. */
  lemma UpfFileShowsSpec(r: Core)
    requires OneLine(Flags(r, UPF).gtpuDev)
    ensures var dev := Flags(r, UPF).gtpuDev;
      FileSays(ConfigData(r, UPF), Lower(UPF) + ".yaml", "  gtpu:", "    - dev: ", if dev == "" then "eth0" else dev)
  {
    PlainConfig(r, UPF);
    UpfSaysDevice(InputsOf(r, UPF));
  }

  // ----- Mounted files -----

  /** A mount finds its volume, and a mounted file is there: among the `files` of the component's ConfigMap, or,
      for UPF, in the one with the entrypoint. */
  ghost predicate MountFinds(r: Core, c: Component, files: set<string>, p: PodSpec, m: Mount)
  {
    exists v :: v in p.volumes && v.name == m.name
      && (m.subPath != "" ==>
            && v.ConfigVolume?
            && (v.configMap == MainConfigKey(r.who, c).name ==> m.subPath in files)
            && (v.configMap != MainConfigKey(r.who, c).name ==>
                  c == UPF && v.configMap == EntrypointKey(r.who).name && m.subPath in EntrypointConfig(r).obj.body.data))
  }

  ghost predicate MountsFind(r: Core, c: Component, files: set<string>, p: PodSpec)
  {
    && (forall i, m :: 0 <= i < |p.containers| && m in p.containers[i].mounts ==> MountFinds(r, c, files, p, m))
    && (forall i, m :: 0 <= i < |p.initContainers| && m in p.initContainers[i].mounts ==> MountFinds(r, c, files, p, m))
  }

  lemma FunctionMounts(r: Core, c: Component, files: set<string>)
    requires c !in {UPF, WebUI, MongoDB} && Lower(c) + ".yaml" in files
    ensures MountsFind(r, c, files, FunctionPod(r, c))
  {
    var p := FunctionPod(r, c);
    assert p.volumes[0].name == "config" && p.volumes[0].configMap == MainConfigKey(r.who, c).name;
  }

  lemma UpfMainMounts(r: Core, files: set<string>, p: PodSpec)
    requires "upf.yaml" in files && p == UpfPod(r)
    ensures |p.containers| == 1 && forall m :: m in p.containers[0].mounts ==> MountFinds(r, UPF, files, p, m)
  {
    assert p.volumes[0].name == "config";
    if Unprivileged(r) { assert p.volumes[2].name == "tun-device"; }
  }

  lemma UpfInitMounts(r: Core, files: set<string>, p: PodSpec)
    requires p == UpfPod(r) && ServiceName(r.who.name, UPF, "entrypoint") != BaseName(r.who.name, UPF)
    ensures |p.initContainers| == 1 && forall m :: m in p.initContainers[0].mounts ==> MountFinds(r, UPF, files, p, m)
  {
    assert p.volumes[1].name == "entrypoint";
    if Unprivileged(r) { assert p.volumes[2].name == "tun-device"; }
  }

  lemma UpfMountsFind(r: Core, files: set<string>)
    requires "upf.yaml" in files && ServiceName(r.who.name, UPF, "entrypoint") != BaseName(r.who.name, UPF)
    ensures MountsFind(r, UPF, files, UpfPod(r))
  {
    UpfMainMounts(r, files, UpfPod(r));
    UpfInitMounts(r, files, UpfPod(r));
  }

  lemma WebuiMountsFind(r: Core, files: set<string>)
    requires "add_admin.sh" in files
    ensures MountsFind(r, WebUI, files, WebuiPod(r))
  {
    assert WebuiPod(r).volumes[0].name == "populate";
  }

  lemma MongoMountsFind(r: Core, files: set<string>)
    ensures MountsFind(r, MongoDB, files, MongoPod(r))
  {
    assert MongoPod(r).volumes[0].name == "datadir" && MongoPod(r).volumes[1].name == "common-scripts";
  }

  lemma WebuiScript(r: Core)
    ensures "add_admin.sh" in ConfigData(r, WebUI)
  {
  }

  lemma HasOwnFile(r: Core, c: Component)
    requires c != WebUI && c != MongoDB
    ensures Lower(c) + ".yaml" in ConfigData(r, c)
  {
    if c == AMF {
      AmfFile(r);
    } else if c == NSSF {
      NssfFile(r);
    } else {
      PlainConfig(r, c);
      FileOf(InputsOf(r, c), c);
    }
  }

  lemma LongerName(inst: string)
    ensures ServiceName(inst, UPF, "entrypoint") != BaseName(inst, UPF)
  {
    assert |ServiceName(inst, UPF, "entrypoint")| > |BaseName(inst, UPF)|;
  }

  lemma PodMounts(r: Core, c: Component, files: set<string>)
    requires c != WebUI && c != MongoDB ==> Lower(c) + ".yaml" in files
    requires c == WebUI ==> "add_admin.sh" in files
    ensures MountsFind(r, c, files, PodOf(r, c))
  {
    match c
    case UPF =>
      assert "upf" + ".yaml" == "upf.yaml";
      LongerName(r.who.name);
      UpfMountsFind(r, files);
    case WebUI => WebuiMountsFind(r, files);
    case MongoDB => MongoMountsFind(r, files);
    case _ => FunctionMounts(r, c, files);
  }

  /** Every mount of every generated pod finds its volume, and every mounted file is in its ConfigMap. */
  lemma MountedFilesExist(r: Core, c: Component)
    ensures MountsFind(r, c, ConfigData(r, c).Keys, PodOf(r, c))
  {
    if c == WebUI { WebuiScript(r); } else if c != MongoDB { HasOwnFile(r, c); }
    PodMounts(r, c, ConfigData(r, c).Keys);
  }
}
