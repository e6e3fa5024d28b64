/** What can be read off the rendered texts by someone who knows the file format, but not the templates. */
module Reading {
  import opened Text
  import opened Model
  import opened Config

  // ----- Lines -----

  function Lines(s: string): seq<string>
    decreases |s|
  {
    if s == "" then [] else var l := ReadLine(s); [l.head] + Lines(l.tail)
  }

  predicate OneLineEach(ls: seq<string>)
  {
    forall i :: 0 <= i < |ls| ==> OneLine(ls[i])
  }

  lemma LinesCons(line: string, rest: string)
    requires OneLine(line) && AtLineStart(rest)
    ensures Lines("\n" + line + rest) == [line] + Lines(rest)
  {
    ReadLineReads(line, rest);
  }

  lemma Regrouped(a: string, b: string, c: string)
    ensures (a + b) + c == a + (b + c)
  {
  }

  lemma LinesStep(first: string, u: string, rest: string, more: seq<string>)
    requires OneLine(first) && AtLineStart(u + rest) && Lines(u + rest) == more
    ensures Lines(("\n" + first + u) + rest) == [first] + more && AtLineStart(("\n" + first + u) + rest)
  {
    Regrouped("\n" + first, u, rest);
    LinesCons(first, u + rest);
  }

  lemma FirstAndRest(ls: seq<string>, more: seq<string>)
    requires ls != []
    ensures [ls[0]] + (ls[1..] + more) == ls + more
  {
  }

  lemma {:induction false} LinesUnlines(ls: seq<string>, rest: string)
    requires OneLineEach(ls) && AtLineStart(rest)
    ensures Lines(Unlines(ls) + rest) == ls + Lines(rest) && AtLineStart(Unlines(ls) + rest)
  {
    if ls == [] {
      assert Unlines(ls) + rest == rest;
    } else {
      LinesUnlines(ls[1..], rest);
      LinesStep(ls[0], Unlines(ls[1..]), rest, ls[1..] + Lines(rest));
      FirstAndRest(ls, Lines(rest));
    }
  }

  lemma {:induction false} LinesAreLines(s: string)
    ensures OneLineEach(Lines(s))
    decreases |s|
  {
    if s != "" {
      ReadLineIsOneLine(s);
      LinesAreLines(ReadLine(s).tail);
    }
  }

  function Unquoted(s: string): string
  {
    if s != "" && s[|s| - 1] == '"' then s[..|s| - 1] else s
  }

  lemma UnquotedReads(v: string)
    ensures Unquoted(v + "\"") == v
  {
    assert (v + "\"")[..|v|] == v;
  }

  // ----- Pairs of lines -----

  /** What follows two keys on two consecutive lines. */
  datatype Pair = Pair(first: string, second: string)

  function ReadPairs(ls: seq<string>, key1: string, key2: string): seq<Pair>
  {
    if |ls| < 2 then []
    else if HasPrefix(ls[0], key1) && HasPrefix(ls[1], key2) then
      [Pair(ls[0][|key1|..], ls[1][|key2|..])] + ReadPairs(ls[2..], key1, key2)
    else ReadPairs(ls[1..], key1, key2)
  }

  predicate CleanPair(p: Pair)
  {
    OneLine(p.first) && OneLine(p.second)
  }

  lemma {:induction false} PairsAreClean(ls: seq<string>, key1: string, key2: string)
    requires OneLineEach(ls)
    ensures forall i :: 0 <= i < |ReadPairs(ls, key1, key2)| ==> CleanPair(ReadPairs(ls, key1, key2)[i])
    decreases |ls|
  {
    if |ls| >= 2 {
      assert OneLine(ls[0]) && OneLine(ls[1]);
      PairsAreClean(ls[1..], key1, key2);
      PairsAreClean(ls[2..], key1, key2);
    }
  }

  predicate NoneStarts(ls: seq<string>, key: string)
  {
    forall i :: 0 <= i < |ls| ==> !HasPrefix(ls[i], key)
  }

  lemma {:induction false} SkipLines(hs: seq<string>, rest: seq<string>, key1: string, key2: string)
    requires NoneStarts(hs, key1)
    ensures ReadPairs(hs + rest, key1, key2) == ReadPairs(rest, key1, key2)
  {
    if hs == [] {
      assert hs + rest == rest;
    } else {
      assert (hs + rest)[1..] == hs[1..] + rest && !HasPrefix(hs[0], key1);
      SkipLines(hs[1..], rest, key1, key2);
      if |hs + rest| < 2 { assert |rest| < 2; }
    }
  }

  lemma OnePair(key1: string, v1: string, key2: string, v2: string, more: seq<string>)
    ensures ReadPairs([key1 + v1, key2 + v2] + more, key1, key2) == [Pair(v1, v2)] + ReadPairs(more, key1, key2)
  {
    PrefixOfConcat(key1, v1);
    PrefixOfConcat(key2, v2);
    var ls := [key1 + v1, key2 + v2] + more;
    assert ls[2..] == more;
  }

  /** A block that starts with the lines `hs` and writes its fields after the two keys. */
  predicate Keyed(b: Block, hs: seq<string>, key1: string, key2: string)
  {
    ValidBlock(b) && b.head == Unlines(hs) && OneLineEach(hs) && NoneStarts(hs, key1) && b.pre1 == key1 && b.pre2 == key2
  }

  function PairOf(b: Block, x: Slice): Pair
  {
    Pair(First(b, x) + b.post1, Second(b, x) + b.post2)
  }

  lemma TwoMore(head: string, l1: string, l2: string, more: string)
    ensures head + ("\n" + l1) + ("\n" + l2) + more == head + ("\n" + l1 + ("\n" + l2 + more))
  {
    Regrouped(head + ("\n" + l1), "\n" + l2, more);
    Regrouped(head, "\n" + l1, "\n" + l2 + more);
  }

  lemma FieldLines(head: string, hs: seq<string>, l1: string, l2: string, more: string)
    requires head == Unlines(hs) && OneLineEach(hs) && OneLine(l1) && OneLine(l2) && AtLineStart(more)
    ensures var text := head + ("\n" + l1) + ("\n" + l2) + more;
      Lines(text) == hs + ([l1, l2] + Lines(more)) && AtLineStart(text)
  {
    LinesCons(l2, more);
    LinesOfTwo(l1, l2, more);
    LinesUnlines(hs, "\n" + l1 + ("\n" + l2 + more));
    TwoMore(head, l1, l2, more);
  }

  lemma LinesOfTwo(l1: string, l2: string, more: string)
    requires OneLine(l1) && OneLine(l2) && AtLineStart(more)
    ensures Lines("\n" + l1 + ("\n" + l2 + more)) == [l1, l2] + Lines(more)
  {
    LinesCons(l2, more);
    LinesCons(l1, "\n" + l2 + more);
    assert [l1] + ([l2] + Lines(more)) == [l1, l2] + Lines(more);
  }

  lemma RenderedPair(b: Block, hs: seq<string>, key1: string, key2: string, x: Slice, more: string)
    requires Keyed(b, hs, key1, key2) && CleanSlice(x) && AtLineStart(more)
    ensures ReadPairs(Lines(RenderSlice(b, x) + more), key1, key2) == [PairOf(b, x)] + ReadPairs(Lines(more), key1, key2)
    ensures AtLineStart(RenderSlice(b, x) + more)
  {
    var v1, v2 := First(b, x) + b.post1, Second(b, x) + b.post2;
    assert b.pre1 + First(b, x) + b.post1 == key1 + v1 && b.pre2 + Second(b, x) + b.post2 == key2 + v2;
    FieldLines(b.head, hs, key1 + v1, key2 + v2, more);
    SkipLines(hs, [key1 + v1, key2 + v2] + Lines(more), key1, key2);
    OnePair(key1, v1, key2, v2, Lines(more));
  }

  function PairsOf(b: Block, xs: seq<Slice>): (ps: seq<Pair>)
    ensures |ps| == |xs| && forall i :: 0 <= i < |xs| ==> ps[i] == PairOf(b, xs[i])
  {
    if xs == [] then [] else [PairOf(b, xs[0])] + PairsOf(b, xs[1..])
  }

  lemma {:induction false} RenderedPairs(b: Block, hs: seq<string>, key1: string, key2: string, xs: seq<Slice>, rest: string)
    requires Keyed(b, hs, key1, key2) && CleanSlices(xs) && AtLineStart(rest) && ReadPairs(Lines(rest), key1, key2) == []
    ensures ReadPairs(Lines(RenderSlices(b, xs) + rest), key1, key2) == PairsOf(b, xs)
    ensures AtLineStart(RenderSlices(b, xs) + rest)
  {
    if xs == [] {
      assert "" + rest == rest;
    } else {
      assert CleanSlice(xs[0]);
      RenderedPairs(b, hs, key1, key2, xs[1..], rest);
      RenderCons(b, xs, rest);
      RenderedPair(b, hs, key1, key2, xs[0], RenderSlices(b, xs[1..]) + rest);
    }
  }

  // ----- Slices -----

  /** A slice of the AMF file: an SD in quotes and, on the next line, an SST. */
  function AmfSlice(p: Pair): Slice
  {
    Slice(p.second, Unquoted(p.first))
  }

  /** A slice of the NSSF file: an SST and, on the next line, an SD, both in quotes. */
  function NssfSlice(p: Pair): Slice
  {
    Slice(Unquoted(p.first), Unquoted(p.second))
  }

  function ReadAmfSlices(ls: seq<string>): seq<Slice>
  {
    var ps := ReadPairs(ls, "      - sd: \"", "        sst: ");
    seq(|ps|, i requires 0 <= i < |ps| => AmfSlice(ps[i]))
  }

  function ReadNssfSlices(ls: seq<string>): seq<Slice>
  {
    var ps := ReadPairs(ls, "            sst: \"", "            sd: \"");
    seq(|ps|, i requires 0 <= i < |ps| => NssfSlice(ps[i]))
  }

  lemma ReadAreClean(ls: seq<string>)
    requires OneLineEach(ls)
    ensures CleanSlices(ReadAmfSlices(ls)) && CleanSlices(ReadNssfSlices(ls))
  {
    PairsAreClean(ls, "      - sd: \"", "        sst: ");
    PairsAreClean(ls, "            sst: \"", "            sd: \"");
    var ps, qs := ReadPairs(ls, "      - sd: \"", "        sst: "), ReadPairs(ls, "            sst: \"", "            sd: \"");
    forall i | 0 <= i < |ps| ensures CleanSlice(ReadAmfSlices(ls)[i]) { assert CleanPair(ps[i]); }
    forall i | 0 <= i < |qs| ensures CleanSlice(ReadNssfSlices(ls)[i]) { assert CleanPair(qs[i]); }
  }

  lemma AmfBlockKeyed()
    ensures Keyed(AmfBlock(), [], "      - sd: \"", "        sst: ")
  {
    BlocksAreValid("");
  }

  lemma NssfHeadSkipped(uri: string, list: string, inst: string)
    requires uri == "        - uri: http://" + inst + "-nrf-sbi:7777" && list == "          s_nssai:"
    ensures NoneStarts([uri, list], "            sst: \"")
  {
    NotPrefix(uri, "            sst: \"", 8);
    NotPrefix(list, "            sst: \"", 10);
  }

  lemma NssfHeadIs(inst: string)
    ensures NssfBlock(inst).head == Unlines(["        - uri: http://" + inst + "-nrf-sbi:7777", "          s_nssai:"])
  {
    TwoLines("        - uri: http://" + inst + "-nrf-sbi:7777", "          s_nssai:");
    assert "\n" + ("        - uri: http://" + inst + "-nrf-sbi:7777") == "\n        - uri: http://" + inst + "-nrf-sbi:7777";
    assert "-nrf-sbi:7777" + ("\n" + "          s_nssai:") == "-nrf-sbi:7777\n          s_nssai:";
  }

  lemma NssfBlockKeyed(inst: string)
    requires OneLine(inst)
    ensures Keyed(NssfBlock(inst), ["        - uri: http://" + inst + "-nrf-sbi:7777", "          s_nssai:"],
      "            sst: \"", "            sd: \"")
  {
    BlocksAreValid(inst);
    NssfHeadIs(inst);
    NssfHeadSkipped("        - uri: http://" + inst + "-nrf-sbi:7777", "          s_nssai:", inst);
  }

  lemma TwoLines(a: string, b: string)
    ensures Unlines([a, b]) == "\n" + a + ("\n" + b)
  {
    assert [a, b][1..] == [b] && [b][1..] == [];
    assert Unlines([b]) == "\n" + b + "" == "\n" + b;
  }

  lemma AmfPairsAreSlices(xs: seq<Slice>, ls: seq<string>)
    requires ReadPairs(ls, "      - sd: \"", "        sst: ") == PairsOf(AmfBlock(), xs)
    ensures ReadAmfSlices(ls) == xs
  {
    var ys := ReadAmfSlices(ls);
    forall i | 0 <= i < |xs| ensures ys[i] == xs[i] {
      UnquotedReads(xs[i].sd);
      assert xs[i].sst + "" == xs[i].sst;
    }
    assert ys == xs;
  }

  lemma NssfPairsAreSlices(inst: string, xs: seq<Slice>, ls: seq<string>)
    requires ReadPairs(ls, "            sst: \"", "            sd: \"") == PairsOf(NssfBlock(inst), xs)
    ensures ReadNssfSlices(ls) == xs
  {
    var ys := ReadNssfSlices(ls);
    forall i | 0 <= i < |xs| ensures ys[i] == xs[i] {
      UnquotedReads(xs[i].sst);
      UnquotedReads(xs[i].sd);
    }
    assert ys == xs;
  }

  lemma TailLinesStart(inst: string)
    ensures NoneStarts(AmfTail(inst), "      - sd: \"")
  {
    var ls, key := AmfTail(inst), "      - sd: \"";
    forall i | 0 <= i < |ls| ensures !HasPrefix(ls[i], key) {
      if i != 5 && i != 6 && i != 8 { NotPrefix(ls[i], key, if i == 7 then 6 else if i == 2 || i == 4 then 2 else 4); }
    }
  }

  lemma NothingStarts(first: string, rest: seq<string>, key1: string, key2: string)
    requires !HasPrefix(first, key1) && NoneStarts(rest, key1)
    ensures ReadPairs([first] + rest, key1, key2) == []
  {
    var ls := [first] + rest;
    SkipLines(ls, [], key1, key2);
    assert ls + [] == ls;
  }

  lemma LinesOf(first: string, rest: seq<string>)
    requires OneLine(first) && OneLineEach(rest)
    ensures Lines("\n" + first + Unlines(rest)) == [first] + rest
  {
    LinesUnlines(rest, "");
    assert Unlines(rest) + "" == Unlines(rest) && rest + [] == rest;
    LinesCons(first, Unlines(rest));
  }

  lemma TailIsLines(inst: string)
    requires OneLine(inst)
    ensures OneLineEach(AmfTail(inst))
  {
  }

  lemma NoPairsIn(first: string, tail: seq<string>, key1: string, key2: string, rest: string)
    requires OneLine(first) && OneLineEach(tail) && !HasPrefix(first, key1) && NoneStarts(tail, key1)
    requires rest == "\n" + first + Unlines(tail)
    ensures AtLineStart(rest) && ReadPairs(Lines(rest), key1, key2) == []
  {
    LinesOf(first, tail);
    NothingStarts(first, tail, key1, key2);
  }

  lemma NoSlicesInTail(inst: string)
    requires OneLine(inst)
    ensures var rest := "\n  security:" + Unlines(AmfTail(inst));
      AtLineStart(rest) && ReadPairs(Lines(rest), "      - sd: \"", "        sst: ") == []
  {
    TailLinesStart(inst);
    TailIsLines(inst);
    assert "\n" + "  security:" == "\n  security:";
    NoPairsIn("  security:", AmfTail(inst), "      - sd: \"", "        sst: ", "\n  security:" + Unlines(AmfTail(inst)));
  }

  /** The SD stands under `sd` and the SST under `sst`: read off the AMF file after its head, by the keys, the
      slices are those of the spec exactly if no field of a slice contains a newline. */
  lemma AmfFileShowsSlices(inst: string, cfg: Configuration, metrics: bool)
    requires OneLine(inst)
    ensures HasPrefix(AmfText(inst, cfg, metrics), AmfHead(inst, cfg, metrics))
    ensures ReadAmfSlices(Lines(AmfText(inst, cfg, metrics)[|AmfHead(inst, cfg, metrics)|..])) == SliceList(cfg)
            <==> CleanSlices(SliceList(cfg))
  {
    var rest := "\n  security:" + Unlines(AmfTail(inst));
    var body := RenderSlices(AmfBlock(), SliceList(cfg)) + rest;
    PrefixOfConcat(AmfHead(inst, cfg, metrics), body);
    if CleanSlices(SliceList(cfg)) {
      AmfBlockKeyed();
      NoSlicesInTail(inst);
      RenderedPairs(AmfBlock(), [], "      - sd: \"", "        sst: ", SliceList(cfg), rest);
      AmfPairsAreSlices(SliceList(cfg), Lines(body));
    }
    LinesAreLines(body);
    ReadAreClean(Lines(body));
  }

  /** The same for the NSSF file. */
  lemma NssfFileShowsSlices(inst: string, cfg: Configuration)
    requires OneLine(inst)
    ensures HasPrefix(NssfText(inst, cfg), NssfHead(inst))
    ensures ReadNssfSlices(Lines(NssfText(inst, cfg)[|NssfHead(inst)|..])) == SliceList(cfg)
            <==> CleanSlices(SliceList(cfg))
  {
    var body := RenderSlices(NssfBlock(inst), SliceList(cfg)) + "\n";
    PrefixOfConcat(NssfHead(inst), body);
    if CleanSlices(SliceList(cfg)) {
      NssfBlockKeyed(inst);
      RenderedPairs(NssfBlock(inst), ["        - uri: http://" + inst + "-nrf-sbi:7777", "          s_nssai:"],
                    "            sst: \"", "            sd: \"", SliceList(cfg), "\n");
      NssfPairsAreSlices(inst, SliceList(cfg), Lines(body));
    }
    LinesAreLines(body);
    ReadAreClean(Lines(body));
  }

  // ----- Numbers -----

  function Pow10(n: nat): nat
  {
    if n == 0 then 1 else 10 * Pow10(n - 1)
  }

  /** The ten digits in their order. */
  function Digits(): string {
    "0123456789"
  }

  lemma DigitsCount(c: char)
    requires IsDigit(c)
    ensures Digits()[DigitValue(c)] == c
  {
  }

  /** A digit counts by its rank among the ten digits and by its place from the right. */
  predicate ByPlace(s: string, d: nat)
    requires s != "" && AllDigits(s)
  {
    d < 10 && Digits()[d] == s[0] && DecimalValue(s) == d * Pow10(|s| - 1) + DecimalValue(s[1..])
  }

  /** A digit counts by its rank among the ten digits and by its place from the right. */
  lemma {:induction false} DigitsByPlace(s: string)
    requires s != "" && AllDigits(s)
    ensures ByPlace(s, DigitValue(s[0]))
  {
    var front, last, d := s[..|s| - 1], s[|s| - 1], DigitValue(s[0]);
    DigitsCount(s[0]);
    if front == "" {
      assert s[1..] == "";
    } else {
      DigitsByPlace(front);
      assert s[1..][..|s[1..]| - 1] == front[1..];
      TenTimes(d, Pow10(|front| - 1), DecimalValue(front[1..]), DigitValue(last));
      assert Pow10(|s| - 1) == 10 * Pow10(|front| - 1);
    }
  }

  lemma TenTimes(d: nat, p: nat, v: nat, e: nat)
    ensures 10 * (d * p + v) + e == d * (10 * p) + (10 * v + e)
  {
  }

  lemma DigitsUnsigned(s: string)
    requires s != "" && AllDigits(s)
    ensures s[0] != '-' && s[0] != '+' && ("+" + s)[1..] == s && ("-" + s)[1..] == s
  {
    assert IsDigit(s[0]);
  }

  /** What Atoi reads: digits, with or without a sign, whose value fits 64 bits. */
  lemma AtoiReads(s: string)
    requires s != "" && AllDigits(s)
    ensures Atoi(s) == Atoi("+" + s) == (if DecimalValue(s) <= MAX_INT then Some(DecimalValue(s)) else None)
    ensures var n: int := 0 - DecimalValue(s); Atoi("-" + s) == if n >= MIN_INT then Some(n) else None
  {
    DigitsUnsigned(s);
  }

  /** And nothing else. */
  lemma AtoiRejects(s: string)
    ensures Atoi(s).Some? ==> exists d :: d != "" && AllDigits(d) && (s == d || s == "+" + d || s == "-" + d)
  {
    if Atoi(s).Some? {
      var d := if s[0] == '-' || s[0] == '+' then s[1..] else s;
      assert d != "" && AllDigits(d) && (s == d || s == "+" + d || s == "-" + d);
    }
  }
}
