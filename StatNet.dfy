/** The network template (stat_net.php): data sources come in consecutive
    in/out pairs, one graph per pair. The first source of a pair names the
    device ("<dev>_in"), resets the graph and sets its options; every source
    adds its own DEF, draw entry and summary; the second source of a pair
    closes the graph with four bandwidth reference lines. */
module StatNet {
  import opened Strings
  import opened Rrd
  import opened Seqs

  /** One entry of the data-source list: NAME, RRDFILE and DS */
  datatype Source = Source(name: string, rrdFile: string, ds: string)

  /** Data sources per graph */
  const Base := 2

  /** Group (graph id) of the data source with key k */
  function Group(k: nat): (g: nat)
    ensures g >= 1
    ensures (g - 1) * Base <= k < g * Base
  {
    k / Base + 1
  }

  /** Key of the first data source of group g */
  function FirstKey(g: nat): nat
    requires g >= 1
  {
    (g - 1) * Base
  }

  // ---------------------------------------------------------------------------
  // The style map
  // ---------------------------------------------------------------------------

  /** An entry of the style map: the RRD graph element and its colour */
  datatype Style = Style(kind: string, color: string)

  /** `$smap` */
  const StyleMap: map<string, Style> :=
    map["in" := Style("AREA", "#0c0"), "out" := Style("LINE1", "#029")]

  /** `$smap[$sname]['type']` and `['color']`: a short name the map lacks reads
      as null, which the concatenation renders as the empty string */
  function StyleOf(sname: string): (r: Style)
    ensures sname == "in" ==> r == Style("AREA", "#0c0")
    ensures sname == "out" ==> r == Style("LINE1", "#029")
    ensures sname != "in" && sname != "out" ==> r == Style("", "")
  {
    if sname in StyleMap then StyleMap[sname] else Style("", "")
  }

  // ---------------------------------------------------------------------------
  // Device and short name
  // ---------------------------------------------------------------------------

  datatype Option = None | Some(value: string)

  /** `/^(.*)_in$/`: the device a name ends in "_in" for; the greedy group
      takes everything before the final "_in" */
  function DeviceOf(name: string): (r: Option)
    ensures r.Some? <==> EndsWith(name, "_in")
    ensures r.Some? ==> name == r.value + "_in"
  {
    if EndsWith(name, "_in") then Some(name[..|name| - 3]) else None
  }

  lemma DeviceOfRoundTrip(dev: string)
    ensures DeviceOf(dev + "_in") == Some(dev)
  {
    assert (dev + "_in")[..|dev|] == dev;
  }

  /** A character with a meaning inside a PCRE pattern delimited by '/' */
  predicate IsRegexMeta(c: char) {
    c in "\\^$.|?*+()[]{}/"
  }

  /** A device name that can be pasted into a pattern and match only itself */
  predicate RegexSafe(dev: string) {
    forall i | 0 <= i < |dev| :: !IsRegexMeta(dev[i])
  }

  /** `/^$dev_(.*)$/`: the name without a leading "<dev>_", or the whole name */
  function ShortName(dev: string, name: string): (r: string)
    requires RegexSafe(dev)
    ensures StartsWith(name, dev + "_") ==> name == dev + "_" + r
    ensures !StartsWith(name, dev + "_") ==> r == name
  {
    if StartsWith(name, dev + "_") then name[|dev| + 1..] else name
  }

  lemma ShortNameRoundTrip(dev: string, rest: string)
    requires RegexSafe(dev)
    ensures ShortName(dev, dev + "_" + rest) == rest
  {
    assert (dev + "_" + rest)[..|dev| + 1] == dev + "_";
  }

  // ---------------------------------------------------------------------------
  // Legend padding
  // ---------------------------------------------------------------------------

  function Spaces(n: nat): (r: string)
    ensures |r| == n && forall i | 0 <= i < n :: r[i] == ' '
  {
    if n == 0 then "" else Spaces(n - 1) + " "
  }

  /** `sprintf('%-20s', s)` with width w: s, then spaces up to width w */
  function LeftJustify(s: string, w: nat): (r: string)
    ensures |r| == if |s| < w then w else |s|
    ensures r[..|s|] == s
    ensures forall i | |s| <= i < |r| :: r[i] == ' '
  {
    if |s| < w then s + Spaces(w - |s|) else s
  }

  // ---------------------------------------------------------------------------
  // Tokens
  // ---------------------------------------------------------------------------

  /** RRD variable of the data source with key k */
  function VarName(k: nat): string {
    "v" + NatToDecimal(k)
  }

  /** The unit the template gives every graph */
  const Unit := "B"

  /** gprint format whose legend starts with `head`, in unit u */
  function SummaryFormat(head: string, u: string): string {
    head + "\\: %4.3lg%s" + u
  }

  /** The hand-written draw entry, e.g. "AREA:v0#0c0:'eth0 in              ' " */
  function DrawEntry(k: nat, dev: string, sname: string): string {
    var style := StyleOf(sname);
    style.kind + ":" + VarName(k) + style.color + ":'" + LeftJustify(dev + " " + sname, 20) + "' "
  }

  /** What data source k adds to its graph: its DEF, its draw entry, the
      MAX, MIN, AVERAGE and LAST summaries of its own variable, and a line break */
  function SourceTokens(k: nat, s: Source, dev: string, sname: string, u: string): (r: seq<Token>)
    ensures |r| == 7
    ensures r[0] == Def(VarName(k), s.rrdFile, s.ds, "AVERAGE")
    ensures r[1].Text? && r[6] == Comment("\\n")
    ensures forall j | 2 <= j < 6 :: r[j].Gprint? && r[j].vname == VarName(k) && |r[j].cfs| == 1
    ensures r[2].cfs == ["MAX"] && r[3].cfs == ["MIN"] && r[4].cfs == ["AVERAGE"] && r[5].cfs == ["LAST"]
  {
    [Def(VarName(k), s.rrdFile, s.ds, "AVERAGE"),
     Text(DrawEntry(k, dev, sname)),
     Gprint(VarName(k), ["MAX"], SummaryFormat("MAX", u)),
     Gprint(VarName(k), ["MIN"], SummaryFormat("MIN", u)),
     Gprint(VarName(k), ["AVERAGE"], SummaryFormat("AVG", u)),
     Gprint(VarName(k), ["LAST"], SummaryFormat("LAST", u)),
     Comment("\\n")]
  }

  /** 10 MBit/s, 100 MBit/s, 1 GBit/s and 10 GBit/s in bytes per second, and a line break */
  function ReferenceLines(): (r: seq<Token>)
    ensures |r| == 5
  {
    [Hrule(10 * 131072, "#333", "10MBit/s"),
     Hrule(100 * 131072, "#773", "100MBit/s"),
     Hrule(1024 * 131072, "#484", "1GBit/s"),
     Hrule(10240 * 131072, "#844", "10GBit/s"),
     Comment("\\n")]
  }

  lemma ReferenceLinesIncreasing()
    ensures var r := ReferenceLines();
      && (forall j | 0 <= j < 4 :: r[j].Hrule? && r[j].value > 0)
      && r[0].value < r[1].value < r[2].value < r[3].value
      && r[4] == Comment("\\n")
  {
  }

  // ---------------------------------------------------------------------------
  // The state after the first n data sources
  // ---------------------------------------------------------------------------

  /** Group g has been begun once its first data source is processed */
  predicate Opened(g: int, n: nat) {
    1 <= g && FirstKey(g) < n
  }

  /** `$dev[$i]` as the loop reads it: set from the pair's first name, or unset
      (the empty string) when that name does not end in "_in" */
  function DeviceText(sources: seq<Source>, g: int): string
    requires Opened(g, |sources|)
  {
    var d := DeviceOf(sources[FirstKey(g)].name);
    if d.Some? then d.value else ""
  }

  /** Every pair's device name is safe to paste into a pattern */
  ghost predicate DevicesRegexSafe(sources: seq<Source>) {
    forall g | Opened(g, |sources|) :: RegexSafe(DeviceText(sources, g))
  }

  /** Tokens of data source k */
  function TokensOf(sources: seq<Source>, k: nat): (r: seq<Token>)
    requires k < |sources| && DevicesRegexSafe(sources)
    ensures |r| == 7
  {
    var dev := DeviceText(sources, Group(k));
    SourceTokens(k, sources[k], dev, ShortName(dev, sources[k].name), Unit)
  }

  /** `$def[g]` once the first n data sources are processed */
  function GroupDef(sources: seq<Source>, g: int, n: nat): seq<Token>
    requires Opened(g, n) && n <= |sources| && DevicesRegexSafe(sources)
  {
    var first := FirstKey(g);
    TokensOf(sources, first)
      + if first + 1 < n then TokensOf(sources, first + 1) + ReferenceLines() else []
  }

  /** `$opt[g]`: the title names host, service and the pair's ds_name */
  function Title(host: string, service: string, dsName: string): string {
    "--vertical-label Bytes -lo --title '" + host + " / " + service + " - " + dsName + "' "
  }

  /** `$UNIT[g]` has been overwritten once the group g, or the one before it,
      has been begun */
  predicate UnitSet(g: int, n: nat) {
    1 <= g && 0 < n && (g - 2) * Base < n
  }

  /** UnitSet covers exactly the begun groups and the one after each */
  lemma UnitSetCovers(g: int, n: nat)
    ensures UnitSet(g, n) <==> Opened(g, n) || Opened(g - 1, n)
  {
  }

  // ---------------------------------------------------------------------------
  // The maps after the first n data sources
  // ---------------------------------------------------------------------------

  ghost predicate DefsBuilt(sources: seq<Source>, n: nat, def: map<int, seq<Token>>)
    requires n <= |sources| && DevicesRegexSafe(sources)
  {
    && (forall g :: g in def <==> Opened(g, n))
    && (forall g | g in def :: def[g] == GroupDef(sources, g, n))
  }

  ghost predicate OptsBuilt(sources: seq<Source>, host: string, service: string, n: nat, opt: map<int, string>)
    requires n <= |sources|
  {
    && (forall g :: g in opt <==> Opened(g, n))
    && (forall g | g in opt :: opt[g] == Title(host, service, DeviceText(sources, g)))
  }

  ghost predicate DevsBuilt(sources: seq<Source>, n: nat, dev: map<int, string>)
    requires n <= |sources|
  {
    && (forall g :: g in dev <==> Opened(g, n) && DeviceOf(sources[FirstKey(g)].name).Some?)
    && (forall g | g in dev :: dev[g] == DeviceText(sources, g))
  }

  ghost predicate UnitsBuilt(unit0: map<int, string>, n: nat, unit: map<int, string>) {
    && (forall g :: g in unit <==> g in unit0 || UnitSet(g, n))
    && (forall g | g in unit :: unit[g] == if UnitSet(g, n) then Unit else unit0[g])
  }

  /** `$def`, `$opt`, `$dev`, `$ds_name` and `$UNIT` after the first n data
      sources, `$UNIT` having held unit0 before the loop */
  ghost predicate Built(sources: seq<Source>, host: string, service: string, unit0: map<int, string>, n: nat,
                        dev: map<int, string>, dsName: map<int, string>, opt: map<int, string>,
                        unit: map<int, string>, def: map<int, seq<Token>>)
    requires n <= |sources| && DevicesRegexSafe(sources)
  {
    && DefsBuilt(sources, n, def)
    && OptsBuilt(sources, host, service, n, opt)
    && DevsBuilt(sources, n, dev)
    && dsName == dev
    && UnitsBuilt(unit0, n, unit)
  }

  // ---------------------------------------------------------------------------
  // Grouping
  // ---------------------------------------------------------------------------

  /** Sources 2m and 2m+1 share group m+1, whose first key is 2m */
  lemma PairsShareGroup(m: nat)
    ensures Group(2 * m) == Group(2 * m + 1) == m + 1
    ensures FirstKey(m + 1) == 2 * m
  {
  }

  /** Two sources share a group exactly when they belong to the same pair */
  lemma SameGroupIffSamePair(k: nat, k': nat)
    ensures Group(k) == Group(k') <==> k / 2 == k' / 2
  {
  }

  /** A source's group has begun once the source is processed, and it is the
      group begun by the source's even partner */
  lemma GroupOfSource(k: nat)
    ensures Opened(Group(k), k + 1)
    ensures FirstKey(Group(k)) == k - k % 2
  {
  }

  /** Processing source k begins a group exactly when k is even, and that
      group is Group(k) */
  lemma OpenedStep(g: int, k: nat)
    ensures Opened(g, k + 1) <==> Opened(g, k) || (k % 2 == 0 && g == Group(k))
  {
  }

  // ---------------------------------------------------------------------------
  // One data source
  // ---------------------------------------------------------------------------

  /** A source of another pair leaves the graph of group g as it was */
  lemma {:induction false} GroupDefKept(sources: seq<Source>, g: int, k: nat)
    requires k < |sources| && DevicesRegexSafe(sources) && Opened(g, k) && g != Group(k)
    ensures GroupDef(sources, g, k + 1) == GroupDef(sources, g, k)
  {
    assert FirstKey(g) + 1 != k;
  }

  /** Source k grows the graph of its group as GroupDef describes and leaves
      every other graph as it was */
  lemma {:induction false} DefsStep(sources: seq<Source>, k: nat, def: map<int, seq<Token>>, d: seq<Token>)
    requires k < |sources| && DevicesRegexSafe(sources)
    requires DefsBuilt(sources, k, def)
    requires d == GroupDef(sources, Group(k), k + 1)
    ensures DefsBuilt(sources, k + 1, def[Group(k) := d])
  {
    var def' := def[Group(k) := d];
    GroupOfSource(k);
    forall g | true
      ensures g in def' <==> Opened(g, k + 1)
    {
      OpenedStep(g, k);
    }
    forall g | g in def' && g != Group(k)
      ensures def'[g] == GroupDef(sources, g, k + 1)
    {
      OpenedStep(g, k);
      GroupDefKept(sources, g, k);
    }
  }

  /** The even source of a pair begins its graph with its own tokens */
  lemma {:induction false} GroupDefOpened(sources: seq<Source>, k: nat)
    requires k < |sources| && DevicesRegexSafe(sources) && k % 2 == 0
    ensures Opened(Group(k), k + 1)
    ensures GroupDef(sources, Group(k), k + 1) == TokensOf(sources, k)
  {
    GroupOfSource(k);
  }

  /** The odd source of a pair appends its own tokens and the reference lines */
  lemma {:induction false} GroupDefClosed(sources: seq<Source>, k: nat)
    requires k < |sources| && DevicesRegexSafe(sources) && k % 2 == 1
    ensures Opened(Group(k), k) && Opened(Group(k), k + 1)
    ensures GroupDef(sources, Group(k), k + 1) == GroupDef(sources, Group(k), k) + TokensOf(sources, k) + ReferenceLines()
  {
    GroupOfSource(k);
    var first, r := TokensOf(sources, k - 1), ReferenceLines();
    assert GroupDef(sources, Group(k), k) == first + [];
    assert GroupDef(sources, Group(k), k + 1) == first + (TokensOf(sources, k) + r);
    AppendEmpty(first);
    AppendAssociative(first, TokensOf(sources, k), r);
  }

  /** A graph is closed by the reference lines once both sources of its
      pair are processed; it then holds 19 tokens */
  lemma {:induction false} GroupDefClosedShape(sources: seq<Source>, g: int, n: nat)
    requires Opened(g, n) && n <= |sources| && DevicesRegexSafe(sources) && FirstKey(g) + 1 < n
    ensures |GroupDef(sources, g, n)| == 19
    ensures GroupDef(sources, g, n)[14..] == ReferenceLines()
  {
    var first := FirstKey(g);
    var a, b := TokensOf(sources, first), TokensOf(sources, first + 1);
    assert GroupDef(sources, g, n) == a + b + ReferenceLines();
    assert (a + b + ReferenceLines())[14..] == ReferenceLines();
  }

  /** Until the second source of its pair is processed a graph holds the
      first source's 7 tokens and no reference line */
  lemma {:induction false} GroupDefOpenShape(sources: seq<Source>, g: int, n: nat)
    requires Opened(g, n) && n <= |sources| && DevicesRegexSafe(sources) && FirstKey(g) + 1 >= n
    ensures GroupDef(sources, g, n) == TokensOf(sources, FirstKey(g))
    ensures |GroupDef(sources, g, n)| == 7
    ensures forall j | 0 <= j < 7 :: !GroupDef(sources, g, n)[j].Hrule?
  {
  }

  /** After n sources there is one graph per pair begun, numbered 1 to
      ceil(n/2); a graph holds 19 tokens, ending in the reference lines, when
      its pair is complete, and 7 tokens otherwise */
  lemma {:induction false} GraphsOfBuilt(sources: seq<Source>, n: nat, def: map<int, seq<Token>>)
    requires n <= |sources| && DevicesRegexSafe(sources) && DefsBuilt(sources, n, def)
    ensures forall g :: g in def <==> 1 <= g <= (n + 1) / 2
    ensures forall g | g in def :: |def[g]| == 19 <==> 2 * g <= n
    ensures forall g | g in def && 2 * g <= n :: def[g][14..] == ReferenceLines()
  {
    forall g | g in def
      ensures (|def[g]| == 19 <==> 2 * g <= n) && (2 * g <= n ==> def[g][14..] == ReferenceLines())
    {
      if 2 * g <= n {
        GroupDefClosedShape(sources, g, n);
      } else {
        GroupDefOpenShape(sources, g, n);
      }
    }
  }

  /** The opt, device and unit maps after source k */
  lemma {:induction false} OptsStep(sources: seq<Source>, host: string, service: string, k: nat,
                                    opt: map<int, string>, o: string)
    requires k < |sources| && k % 2 == 0
    requires OptsBuilt(sources, host, service, k, opt)
    requires o == Title(host, service, DeviceText(sources, Group(k)))
    ensures OptsBuilt(sources, host, service, k + 1, opt[Group(k) := o])
  {
    var opt' := opt[Group(k) := o];
    forall g | true
      ensures g in opt' <==> Opened(g, k + 1)
    {
      OpenedStep(g, k);
    }
  }

  lemma {:induction false} OptsKept(sources: seq<Source>, host: string, service: string, k: nat,
                                    opt: map<int, string>)
    requires k < |sources| && k % 2 == 1
    requires OptsBuilt(sources, host, service, k, opt)
    ensures OptsBuilt(sources, host, service, k + 1, opt)
  {
    forall g | true
      ensures g in opt <==> Opened(g, k + 1)
    {
      OpenedStep(g, k);
    }
  }

  /** `$dev[$i]` read with an unset entry as the empty string */
  lemma {:induction false} DeviceRead(sources: seq<Source>, n: nat, dev: map<int, string>, g: int)
    requires n <= |sources| && Opened(g, n) && DevsBuilt(sources, n, dev)
    ensures (if g in dev then dev[g] else "") == DeviceText(sources, g)
  {
  }

  lemma {:induction false} DevsStep(sources: seq<Source>, k: nat, dev: map<int, string>, d: string)
    requires k < |sources| && k % 2 == 0 && DeviceOf(sources[k].name) == Some(d)
    requires DevsBuilt(sources, k, dev)
    ensures DevsBuilt(sources, k + 1, dev[Group(k) := d])
  {
    var dev' := dev[Group(k) := d];
    GroupOfSource(k);
    forall g | true
      ensures g in dev' <==> Opened(g, k + 1) && DeviceOf(sources[FirstKey(g)].name).Some?
    {
      OpenedStep(g, k);
    }
  }

  lemma {:induction false} DevsKept(sources: seq<Source>, k: nat, dev: map<int, string>)
    requires k < |sources| && (k % 2 == 1 || DeviceOf(sources[k].name).None?)
    requires DevsBuilt(sources, k, dev)
    ensures DevsBuilt(sources, k + 1, dev)
  {
    GroupOfSource(k);
    forall g | true
      ensures g in dev <==> Opened(g, k + 1) && DeviceOf(sources[FirstKey(g)].name).Some?
    {
      OpenedStep(g, k);
    }
  }

  lemma {:induction false} UnitsStep(unit0: map<int, string>, k: nat, unit: map<int, string>)
    requires k % 2 == 0
    requires UnitsBuilt(unit0, k, unit)
    ensures UnitsBuilt(unit0, k + 1, unit[Group(k) := Unit][Group(k) + 1 := Unit])
  {
    forall g | true
      ensures UnitSet(g, k + 1) <==> UnitSet(g, k) || g == Group(k) || g == Group(k) + 1
    {
      OpenedStep(g, k);
      OpenedStep(g - 1, k);
      UnitSetCovers(g, k);
      UnitSetCovers(g, k + 1);
    }
  }

  lemma {:induction false} UnitsKept(unit0: map<int, string>, k: nat, unit: map<int, string>)
    requires k % 2 == 1
    requires UnitsBuilt(unit0, k, unit)
    ensures UnitsBuilt(unit0, k + 1, unit)
  {
    forall g | true
      ensures UnitSet(g, k + 1) <==> UnitSet(g, k)
    {
      OpenedStep(g, k);
      OpenedStep(g - 1, k);
      UnitSetCovers(g, k);
      UnitSetCovers(g, k + 1);
    }
  }

  // ---------------------------------------------------------------------------
  // The loop
  // ---------------------------------------------------------------------------

  /** `$dev[$i]` and `$ds_name[$i]` from the first name of a pair, when it
      ends in "_in" */
  method TakeDevice(sources: seq<Source>, k: nat, i: int, dev: map<int, string>, dsName: map<int, string>)
    returns (dev': map<int, string>, dsName': map<int, string>)
    requires k < |sources| && k % 2 == 0 && i == Group(k)
    requires DevsBuilt(sources, k, dev) && dsName == dev
    ensures DevsBuilt(sources, k + 1, dev') && dsName' == dev'
    ensures (if i in dsName' then dsName'[i] else "") == DeviceText(sources, i)
  {
    dev', dsName' := dev, dsName;
    var m := DeviceOf(sources[k].name);
    if m.Some? {
      dev' := dev'[i := m.value];
      dsName' := dsName'[i := dev'[i]];
      DevsStep(sources, k, dev, m.value);
    } else {
      DevsKept(sources, k, dev);
    }
    GroupOfSource(k);
    DeviceRead(sources, k + 1, dev', i);
  }

  /** The first source of a pair: `$dev[$i]` and `$ds_name[$i]` from an "_in"
      name, the title, an empty `$def[$i]` and unit "B" for `$UNIT[$i]` and
      `$UNIT[$i+1]` */
  method BeginPair(sources: seq<Source>, host: string, service: string, ghost unit0: map<int, string>, k: nat, i: int,
                   dev: map<int, string>, dsName: map<int, string>, opt: map<int, string>,
                   unit: map<int, string>, def: map<int, seq<Token>>)
    returns (dev': map<int, string>, dsName': map<int, string>, opt': map<int, string>,
             unit': map<int, string>, def': map<int, seq<Token>>)
    requires k < |sources| && DevicesRegexSafe(sources) && k % 2 == 0 && i == Group(k)
    requires Built(sources, host, service, unit0, k, dev, dsName, opt, unit, def)
    ensures DevsBuilt(sources, k + 1, dev') && dsName' == dev'
    ensures OptsBuilt(sources, host, service, k + 1, opt')
    ensures UnitsBuilt(unit0, k + 1, unit')
    ensures DefsBuilt(sources, k, def) && def' == def[i := []]
    ensures (if i in dev' then dev'[i] else "") == DeviceText(sources, i)
    ensures i in unit' && unit'[i] == Unit
  {
    dev', dsName' := TakeDevice(sources, k, i, dev, dsName);
    opt' := opt[i := Title(host, service, if i in dsName' then dsName'[i] else "")];
    OptsStep(sources, host, service, k, opt, opt'[i]);
    def' := def[i := []];
    unit' := unit[i := Unit][i + 1 := Unit];
    GroupOfSource(k);
    UnitsStep(unit0, k, unit);
  }

  /** What source k appends to `$def[$i]`: its DEF, draw entry, summaries and
      line break, and the reference lines when it closes the pair */
  method AddSource(sources: seq<Source>, k: nat, i: int, dev: map<int, string>, unit: map<int, string>,
                   def: map<int, seq<Token>>)
    returns (def': map<int, seq<Token>>)
    requires k < |sources| && DevicesRegexSafe(sources) && i == Group(k) && Opened(i, |sources|)
    requires (if i in dev then dev[i] else "") == DeviceText(sources, i)
    requires i in unit && unit[i] == Unit && i in def
    ensures k % 2 == 0 ==> def' == def[i := def[i] + TokensOf(sources, k)]
    ensures k % 2 == 1 ==> def' == def[i := def[i] + TokensOf(sources, k) + ReferenceLines()]
  {
    var d := if i in dev then dev[i] else "";
    var sname := ShortName(d, sources[k].name);
    def' := def[i := def[i] + SourceTokens(k, sources[k], d, sname, unit[i])];
    assert def'[i] == def[i] + TokensOf(sources, k);
    if k % Base == Base - 1 {
      def' := def'[i := def'[i] + ReferenceLines()];
    }
  }

  /** A pass of the loop over the first source of a pair */
  method StepFirst(sources: seq<Source>, host: string, service: string, ghost unit0: map<int, string>, k: nat, i: int,
                   dev: map<int, string>, dsName: map<int, string>, opt: map<int, string>,
                   unit: map<int, string>, def: map<int, seq<Token>>)
    returns (dev': map<int, string>, dsName': map<int, string>, opt': map<int, string>,
             unit': map<int, string>, def': map<int, seq<Token>>)
    requires k < |sources| && DevicesRegexSafe(sources) && k % 2 == 0 && i == Group(k)
    requires Built(sources, host, service, unit0, k, dev, dsName, opt, unit, def)
    ensures Built(sources, host, service, unit0, k + 1, dev', dsName', opt', unit', def')
  {
    GroupOfSource(k);
    dev', dsName', opt', unit', def' := BeginPair(sources, host, service, unit0, k, i, dev, dsName, opt, unit, def);
    GroupDefOpened(sources, k);
    ghost var cleared := def';
    def' := AddSource(sources, k, i, dev', unit', def');
    ghost var tokens := TokensOf(sources, k);
    assert def' == cleared[i := [] + tokens];
    EmptyAppend(tokens);
    UpdateTwice(def, i, [], tokens);
    DefsStep(sources, k, def, TokensOf(sources, k));
  }

  /** A pass of the loop over the second source of a pair */
  method StepSecond(sources: seq<Source>, host: string, service: string, ghost unit0: map<int, string>, k: nat, i: int,
                    dev: map<int, string>, dsName: map<int, string>, opt: map<int, string>,
                    unit: map<int, string>, def: map<int, seq<Token>>)
    returns (def': map<int, seq<Token>>)
    requires k < |sources| && DevicesRegexSafe(sources) && k % 2 == 1 && i == Group(k)
    requires Built(sources, host, service, unit0, k, dev, dsName, opt, unit, def)
    ensures Built(sources, host, service, unit0, k + 1, dev, dsName, opt, unit, def')
  {
    GroupOfSource(k);
    DevsKept(sources, k, dev);
    UnitsKept(unit0, k, unit);
    OptsKept(sources, host, service, k, opt);
    GroupDefClosed(sources, k);
    def' := AddSource(sources, k, i, dev, unit, def);
    DefsStep(sources, k, def, def'[i]);
  }

  /** One pass of the loop over data source k */
  method Step(sources: seq<Source>, host: string, service: string, ghost unit0: map<int, string>, k: nat,
              dev: map<int, string>, dsName: map<int, string>, opt: map<int, string>,
              unit: map<int, string>, def: map<int, seq<Token>>)
    returns (dev': map<int, string>, dsName': map<int, string>, opt': map<int, string>,
             unit': map<int, string>, def': map<int, seq<Token>>)
    requires k < |sources| && DevicesRegexSafe(sources)
    requires Built(sources, host, service, unit0, k, dev, dsName, opt, unit, def)
    ensures Built(sources, host, service, unit0, k + 1, dev', dsName', opt', unit', def')
  {
    var i := k / Base + 1;
    if k % Base == 0 {
      dev', dsName', opt', unit', def' := StepFirst(sources, host, service, unit0, k, i, dev, dsName, opt, unit, def);
    } else {
      dev', dsName', opt', unit' := dev, dsName, opt, unit;
      def' := StepSecond(sources, host, service, unit0, k, i, dev, dsName, opt, unit, def);
    }
  }

  lemma {:induction false} BuiltInitially(sources: seq<Source>, host: string, service: string, unit0: map<int, string>)
    requires DevicesRegexSafe(sources)
    ensures Built(sources, host, service, unit0, 0, map[], map[], map[], unit0, map[])
  {
  }

  /** The template's loop over all data sources, `$UNIT` holding unit0 before it */
  method BuildGraphs(sources: seq<Source>, host: string, service: string, unit0: map<int, string>)
    returns (dev: map<int, string>, dsName: map<int, string>, opt: map<int, string>,
             unit: map<int, string>, def: map<int, seq<Token>>)
    requires DevicesRegexSafe(sources)
    ensures Built(sources, host, service, unit0, |sources|, dev, dsName, opt, unit, def)
  {
    dev, dsName, opt, unit, def := map[], map[], map[], unit0, map[];
    BuiltInitially(sources, host, service, unit0);
    var k := 0;
    while k < |sources|
      invariant k <= |sources|
      invariant Built(sources, host, service, unit0, k, dev, dsName, opt, unit, def)
    {
      dev, dsName, opt, unit, def := Step(sources, host, service, unit0, k, dev, dsName, opt, unit, def);
      k := k + 1;
    }
  }
}
