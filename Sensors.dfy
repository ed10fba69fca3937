/** The sensor template (check_sensors_ikus.php): every performance-data series
    is sent to exactly one graph, the first category that matches winning:
    temperatures, power, voltages, fans, and a graph of its own for anything
    else. Each category relabels its series in its own way and has its own
    cursor into a fixed colour palette. */
module Sensors {
  import opened Strings
  import opened Rrd
  import opened Seqs

  /** One entry of the host's data-source list: LABEL, UNIT, RRDFILE and DS */
  datatype Series = Series(labelText: string, unit: string, rrdFile: string, ds: string)

  datatype Category = Temperature | Power | Voltage | Fan | Other

  const DefTitle := "Sensors"

  /** The palette in effect (the one assigned first is overwritten before use) */
  const Palette: seq<string> :=
    ["0022ff", "22ff22", "ff0000", "00aaaa", "ff00ff",
     "ffa500", "cc0000", "0000cc", "0080C0", "8080C0",
     "FF0080", "800080", "688e23", "408080", "808000",
     "000000", "00FF00", "0080FF", "FF8000", "800000",
     "FB31FB"]


  /** Id of the first "other" graph; each further one takes the next id */
  const FirstOtherId := 5

  // ---------------------------------------------------------------------------
  // tempunit
  // ---------------------------------------------------------------------------

  /** tempunit: (symbol, vertical label) of a temperature unit code. The switch
      lists its default first, but PHP still tries every case before it, so only
      codes other than F, K and R reach the default. */
  function TempUnit(code: string): (r: (string, string))
    ensures r.1 in {"Celsius", "Fahrenheit", "Kelvin", "Rankine"}
    ensures r.1 == "Celsius" <==> code != "F" && code != "K" && code != "R"
    ensures r.1 != "Celsius" ==> code == r.1[..1]
    ensures r.0 == if r.1 == "Kelvin" then "K" else "°" + r.1[..1]
  {
    if code == "F" then ("°F", "Fahrenheit")
    else if code == "K" then ("K", "Kelvin")
    else if code == "R" then ("°R", "Rankine")
    else ("°C", "Celsius")
  }

  /** An unknown code, or none, reads as Celsius */
  lemma TempUnitFallback(code: string)
    requires code != "F" && code != "K" && code != "R"
    ensures TempUnit(code) == TempUnit("C") == ("°C", "Celsius")
  {
  }

  /** The vertical label determines the symbol */
  lemma TempUnitConsistent(a: string, b: string)
    ensures TempUnit(a).1 == TempUnit(b).1 ==> TempUnit(a) == TempUnit(b)
  {
  }

  // ---------------------------------------------------------------------------
  // Classification
  // ---------------------------------------------------------------------------

  /** `/^temp/`, `/TIN$/`, `/Temp$/`, `/Physicalid\d/`, `/Core\d/` or unit "C" */
  predicate IsTemperature(s: Series) {
    || StartsWith(s.labelText, "temp")
    || EndsWith(s.labelText, "TIN")
    || EndsWith(s.labelText, "Temp")
    || ContainsFollowedByDigit(s.labelText, "Physicalid")
    || ContainsFollowedByDigit(s.labelText, "Core")
    || s.unit == "C"
  }

  /** `/^W/` or `/Power$/` */
  predicate IsPower(s: Series) {
    StartsWith(s.labelText, "W") || EndsWith(s.labelText, "Power")
  }

  /** `/^in\d$/` */
  predicate IsInDigit(t: string) {
    |t| == 3 && t[..2] == "in" && IsDigit(t[2])
  }

  /** `/^V/`, `/^in\d$/`, `/^AVCC$/`, `/V$/`, `/^3VSB$/` or unit "V" */
  predicate IsVoltage(s: Series) {
    || StartsWith(s.labelText, "V")
    || IsInDigit(s.labelText)
    || s.labelText == "AVCC"
    || EndsWith(s.labelText, "V")
    || s.labelText == "3VSB"
    || s.unit == "V"
  }

  /** `/^fan/i` or unit "RPM" */
  predicate IsFan(s: Series) {
    StartsWithIgnoringCase(s.labelText, "fan") || s.unit == "RPM"
  }

  /** The if/elseif cascade of the main loop */
  function Classify(s: Series): Category {
    if IsTemperature(s) then Temperature
    else if IsPower(s) then Power
    else if IsVoltage(s) then Voltage
    else if IsFan(s) then Fan
    else Other
  }

  /** A series lands in a category exactly when that category's test holds
      and every earlier one fails */
  lemma FirstMatchWins(s: Series)
    ensures Classify(s) == Temperature <==> IsTemperature(s)
    ensures Classify(s) == Power <==> !IsTemperature(s) && IsPower(s)
    ensures Classify(s) == Voltage <==> !IsTemperature(s) && !IsPower(s) && IsVoltage(s)
    ensures Classify(s) == Fan <==> !IsTemperature(s) && !IsPower(s) && !IsVoltage(s) && IsFan(s)
    ensures Classify(s) == Other <==> !IsTemperature(s) && !IsPower(s) && !IsVoltage(s) && !IsFan(s)
  {
  }

  /** A series goes to one of the four shared graphs exactly when one of
      their tests holds */
  lemma SharedIffSomeTest(s: Series)
    ensures Classify(s) != Other <==> IsTemperature(s) || IsPower(s) || IsVoltage(s) || IsFan(s)
  {
  }

  lemma CelsiusUnitIsTemperature(s: Series)
    requires s.unit == "C"
    ensures Classify(s) == Temperature
  {
  }

  lemma VoltUnitIsVoltageAfterEarlierTests(s: Series)
    requires s.unit == "V"
    ensures Classify(s) == Voltage <==> !IsTemperature(s) && !IsPower(s)
  {
  }

  lemma RpmUnitIsFanAfterEarlierTests(s: Series)
    requires s.unit == "RPM"
    ensures Classify(s) == Fan <==> !IsTemperature(s) && !IsPower(s) && !IsVoltage(s)
  {
  }

  /** A label without the first letter of p has no match of `/p\d/` */
  lemma {:induction false} NoFollowedByDigitWithoutFirst(t: string, p: string)
    requires |p| >= 1 && p[0] !in t
    ensures !ContainsFollowedByDigit(t, p)
  {
    forall i | 0 <= i < |t| - |p|
      ensures !OccursAt(t, p, i)
    {
      assert t[i] in t;
      assert t[i..i + |p|][0] == t[i];
    }
  }

  /** "V12_Power" is a power series, though it would also pass the voltage test */
  lemma PowerBeforeVoltage(unit: string, rrdFile: string, ds: string)
    requires unit != "C"
    ensures IsVoltage(Series("V12_Power", unit, rrdFile, ds))
    ensures Classify(Series("V12_Power", unit, rrdFile, ds)) == Power
  {
    var t := "V12_Power";
    var s := Series(t, unit, rrdFile, ds);
    assert 'C' !in t;
    NoFollowedByDigitWithoutFirst(t, "Core");
    assert !StartsWith(t, "temp") by { assert t[0] != 't'; }
    assert !EndsWith(t, "TIN") by { assert t[|t| - 1] != 'N'; }
    assert !EndsWith(t, "Temp") by { assert t[|t| - 1] != 'p'; }
    assert !IsTemperature(s);
    assert IsPower(s) by { assert t[|t| - 5..] == "Power"; }
    assert IsVoltage(s) by { assert t[..1] == "V"; }
  }

  /** "temp1" is a temperature series whatever its unit */
  lemma TemperatureBeforeFan(rrdFile: string, ds: string)
    ensures IsFan(Series("temp1", "RPM", rrdFile, ds))
    ensures Classify(Series("temp1", "RPM", rrdFile, ds)) == Temperature
  {
    assert StartsWith("temp1", "temp");
  }

  // ---------------------------------------------------------------------------
  // Label rewrites
  // ---------------------------------------------------------------------------

  /** `preg_replace('/^(.*)X$/', '$1', t)`: the greedy group leaves exactly one
      trailing X off, whatever precedes it */
  function StripSuffix(t: string, x: string): (r: string)
    ensures EndsWith(t, x) ==> r + x == t
    ensures !EndsWith(t, x) ==> r == t
  {
    if EndsWith(t, x) then t[..|t| - |x|] else t
  }

  /** Temperature label: drop a trailing "Temp", then a trailing "TIN", then
      turn underscores into spaces */
  function TemperatureLabel(t: string): (r: string)
    ensures '_' !in r
  {
    ReplaceAll(StripSuffix(StripSuffix(t, "Temp"), "TIN"), '_', ' ')
  }

  /** Stripping the suffix x from t + x gives back t */
  lemma StripSuffixOf(t: string, x: string)
    ensures StripSuffix(t + x, x) == t
  {
    assert (t + x)[|t + x| - |x|..] == x;
    assert (t + x)[..|t|] == t;
  }

  /** A label without underscores is left as it is by the last rewrite */
  lemma {:induction false} ReplaceAbsent(t: string, x: char, y: char)
    requires x !in t
    ensures ReplaceAll(t, x, y) == t
  {
    var r := ReplaceAll(t, x, y);
    forall j | 0 <= j < |t|
      ensures r[j] == t[j]
    {
      assert t[j] in t;
    }
  }

  /** "Temp" alone loses its whole text: the greedy group may be empty */
  lemma TemperatureLabelOfTemp()
    ensures TemperatureLabel("Temp") == ""
  {
    StripSuffixOf("", "Temp");
    assert "" + "Temp" == "Temp";
  }

  lemma TemperatureLabelOfCpu()
    ensures TemperatureLabel("CPU0Temp") == "CPU0"
  {
    StripSuffixOf("CPU0", "Temp");
    assert "CPU0" + "Temp" == "CPU0Temp";
    assert StripSuffix("CPU0", "TIN") == "CPU0" by {
      assert "CPU0"[3] != 'N';
    }
    ReplaceAbsent("CPU0", '_', ' ');
  }

  /** Both suffixes go, "Temp" first and then "TIN", whatever precedes them */
  lemma TemperatureLabelStripsBoth(a: string)
    ensures TemperatureLabel(a + "TIN" + "Temp") == ReplaceAll(a, '_', ' ')
  {
    StripSuffixOf(a + "TIN", "Temp");
    StripSuffixOf(a, "TIN");
  }

  /** A label ending in "Temp" but not in "TINTemp" loses "Temp" only */
  lemma TemperatureLabelStripsTemp(a: string)
    requires !EndsWith(a, "TIN")
    ensures TemperatureLabel(a + "Temp") == ReplaceAll(a, '_', ' ')
  {
    StripSuffixOf(a, "Temp");
  }

  /** Power label: `preg_replace('/^(.+)Power$/', '$1', t)`, so a trailing
      "Power" goes only when something precedes it */
  function PowerLabel(t: string): (r: string)
    ensures |t| > |"Power"| && EndsWith(t, "Power") ==> r + "Power" == t
    ensures !(|t| > |"Power"| && EndsWith(t, "Power")) ==> r == t
  {
    if |t| > |"Power"| && EndsWith(t, "Power") then t[..|t| - |"Power"|] else t
  }

  lemma PowerLabelExamples(x: string)
    requires x != ""
    ensures PowerLabel("Power") == "Power"
    ensures PowerLabel(x + "Power") == x
  {
    assert EndsWith(x + "Power", "Power");
  }

  /** t matches `^V(\d+)_(.+)` with the digit group ending at index e */
  predicate VoltagePrefixAt(t: string, e: int) {
    1 < e < |t| - 1 && t[0] == 'V' && AllDigits(t[1..e]) && t[e] == '_'
  }

  /** `\d+` is followed by `_`, so it can only end where the run of digits ends */
  lemma VoltagePrefixUnique(t: string)
    requires |t| >= 1
    ensures forall e | VoltagePrefixAt(t, e) :: e == DigitRunEnd(t, 1)
  {
    var d := DigitRunEnd(t, 1);
    forall e | VoltagePrefixAt(t, e)
      ensures e == d
    {
      assert !IsDigit(t[e]);
      forall j | 1 <= j < e
        ensures IsDigit(t[j])
      {
        assert t[1..e][j - 1] == t[j];
      }
    }
  }

  /** `preg_replace('/^V(\d+)_(.+)/', '$2', t)`: the label changes exactly when
      the pattern matches, and then only the part after the `_` is kept */
  function DropVoltagePrefix(t: string): (r: string)
    ensures r != t <==> exists e :: VoltagePrefixAt(t, e)
    ensures forall e | VoltagePrefixAt(t, e) :: r == t[e + 1..]
  {
    if |t| >= 1 && t[0] == 'V' then
      var e := DigitRunEnd(t, 1);
      VoltagePrefixUnique(t);
      if e > 1 && e + 1 < |t| && t[e] == '_' then
        assert VoltagePrefixAt(t, e) by {
          assert forall j | 0 <= j < e - 1 :: t[1..e][j] == t[j + 1];
        }
        t[e + 1..]
      else t
    else t
  }

  /** `preg_replace('/^V(\d+)$/', 'Probe $1', t)`: only a bare "V<digits>" is
      renamed */
  function ProbeName(t: string): (r: string)
    ensures r != t <==> |t| >= 2 && t[0] == 'V' && AllDigits(t[1..])
    ensures r != t ==> r == "Probe " + t[1..]
  {
    if |t| >= 2 && t[0] == 'V' && AllDigits(t[1..]) then
      assert ("Probe " + t[1..])[0] != t[0];
      "Probe " + t[1..]
    else t
  }

  /** Voltage label: "V<digits>_<rest>" keeps <rest>, underscores become
      spaces, and a bare "V<digits>" becomes "Probe <digits>"; no underscore
      is left */
  function VoltageLabel(t: string): (r: string)
    ensures '_' !in r
  {
    var u := ReplaceAll(DropVoltagePrefix(t), '_', ' ');
    assert forall j | 1 <= j < |u| :: u[1..][j - 1] == u[j];
    ProbeName(u)
  }

  lemma {:induction false} DropVoltagePrefixOf(d: string, rest: string)
    requires |d| >= 1 && AllDigits(d) && rest != ""
    ensures DropVoltagePrefix("V" + d + "_" + rest) == rest
  {
    var t := "V" + d + "_" + rest;
    var e := DigitRunEnd(t, 1);
    assert forall j | 1 <= j < 1 + |d| :: t[j] == d[j - 1];
    assert t[1 + |d|] == '_' && !IsDigit(t[1 + |d|]);
    assert e == 1 + |d|;
    assert t[e + 1..] == rest;
  }

  /** "V<digits>_<rest>" is labelled as <rest> alone would be after the prefix
      is gone */
  lemma VoltageLabelDropsPrefix(d: string, rest: string)
    requires |d| >= 1 && AllDigits(d) && rest != ""
    ensures VoltageLabel("V" + d + "_" + rest) == ProbeName(ReplaceAll(rest, '_', ' '))
  {
    DropVoltagePrefixOf(d, rest);
  }

  /** A bare "V<digits>" becomes "Probe <digits>" */
  lemma {:induction false} VoltageLabelBareProbe(d: string)
    requires |d| >= 1 && AllDigits(d)
    ensures VoltageLabel("V" + d) == "Probe " + d
  {
    var t := "V" + d;
    var e := DigitRunEnd(t, 1);
    assert forall j | 1 <= j < |t| :: t[j] == d[j - 1];
    assert e == |t|;
    assert DropVoltagePrefix(t) == t;
    var u := ReplaceAll(t, '_', ' ');
    assert forall j | 0 <= j < |t| :: t[j] != '_';
    assert u == t;
    assert t[1..] == d;
  }

  /** The label a category draws for a series */
  function DisplayLabel(c: Category, t: string): string {
    match c
    case Temperature => TemperatureLabel(t)
    case Power => PowerLabel(t)
    case Voltage => VoltageLabel(t)
    case Fan => t
    case Other => t
  }

  /** Labels that only look like "V<digits>_<rest>" keep their text */
  lemma DropVoltagePrefixKeeps()
    ensures DropVoltagePrefix("V12_") == "V12_"
    ensures DropVoltagePrefix("V_x") == "V_x"
    ensures DropVoltagePrefix("VCORE") == "VCORE"
  {
  }

  /** Fans and "other" series keep their label; temperature and voltage
      labels lose every underscore; a power label never grows */
  lemma DisplayLabelShape(c: Category, t: string)
    ensures c == Fan || c == Other ==> DisplayLabel(c, t) == t
    ensures c == Temperature || c == Voltage ==> '_' !in DisplayLabel(c, t)
    ensures c == Power ==> |DisplayLabel(c, t)| <= |t|
  {
  }

  /** A chassis temperature with unit "C", its "Temp" suffix dropped */
  lemma CelsiusExample(f: string, ds: string)
    ensures Classify(Series("CPU0Temp", "C", f, ds)) == Temperature
    ensures DisplayLabel(Temperature, "CPU0Temp") == "CPU0"
  {
    TemperatureLabelOfCpu();
  }

  /** A bare voltage probe "V12" is drawn as "Probe 12" */
  lemma VoltageProbeExample(f: string, ds: string)
    ensures Classify(Series("V12", "V", f, ds)) == Voltage
    ensures DisplayLabel(Voltage, "V12") == "Probe 12"
  {
    VoltageLabelBareProbe("12");
    var t := "V12";
    assert 'C' !in t && 'P' !in t;
    NoFollowedByDigitWithoutFirst(t, "Core");
    NoFollowedByDigitWithoutFirst(t, "Physicalid");
    assert t[..1] != "W" && t[|t| - 3..] != "TIN";
    assert StartsWith(t, "V");
  }

  /** "FAN1" in RPM fails every earlier test and keeps its label */
  lemma FanExample(f: string, ds: string)
    ensures Classify(Series("FAN1", "RPM", f, ds)) == Fan
    ensures DisplayLabel(Fan, "FAN1") == "FAN1"
  {
    var t := "FAN1";
    assert 'C' !in t && 'P' !in t;
    NoFollowedByDigitWithoutFirst(t, "Core");
    NoFollowedByDigitWithoutFirst(t, "Physicalid");
    assert t[..1] != "t" && t[..1] != "W" && t[..1] != "V" && t[..3] != "in1";
    assert t[|t| - 3..] != "TIN" && t[|t| - 1..] != "V";
  }

  // ---------------------------------------------------------------------------
  // Per-series graph entries
  // ---------------------------------------------------------------------------

  /** The k-th palette colour as RRDtool reads it */
  function Color(colors: seq<string>, k: nat): string
    requires k < |colors|
  {
    "#" + colors[k]
  }

  /** Width passed to rrd::cut */
  function CutWidth(c: Category): nat {
    if c == Temperature then 20 else 18
  }

  /** The gprint format of a series; the temperature symbol follows its own unit */
  function Format(c: Category, unit: string): string {
    match c
    case Temperature => "%4.1lf " + TempUnit(unit).0
    case Power => "%8.2lf A"
    case Voltage => "%8.2lf V"
    case Fan => "%6.0lf RPM"
    case Other => "%3.4lf " + unit
  }

  /** RRD variable of the series with key `key` */
  function VarName(key: nat): string {
    "var" + NatToDecimal(key)
  }

  /** What one series adds to its graph: its DEF, a LINE1 in the k-th colour of
      its category, and its LAST/MAX/AVERAGE summary */
  function SeriesTokens(colors: seq<string>, c: Category, s: Series, key: nat, k: nat): seq<Token>
    requires k < |colors|
  {
    [Def(VarName(key), s.rrdFile, s.ds, "AVERAGE"),
     Line1(VarName(key), Color(colors, k), Cut(DisplayLabel(c, s.labelText), CutWidth(c))),
     Gprint(VarName(key), ["LAST", "MAX", "AVERAGE"], Format(c, s.unit))]
  }

  /** The three tokens of a series: a DEF of its RRD file and DS, a LINE1 in
      the k-th palette colour with its category's label, and its summary in
      its category's format, all on the series' own variable */
  lemma SeriesTokensShape(colors: seq<string>, c: Category, s: Series, key: nat, k: nat)
    requires k < |colors|
    ensures var r := SeriesTokens(colors, c, s, key, k);
      && |r| == 3
      && r[0] == Def(VarName(key), s.rrdFile, s.ds, "AVERAGE")
      && r[1].Line1? && r[1].vname == VarName(key) && r[1].color == "#" + colors[k]
      && r[1].legend.text == DisplayLabel(c, s.labelText)
      && r[2].Gprint? && r[2].vname == VarName(key) && r[2].cfs == ["LAST", "MAX", "AVERAGE"]
      && r[2].format == Format(c, s.unit)
  {
  }

  // ---------------------------------------------------------------------------
  // Graph options
  // ---------------------------------------------------------------------------

  /** Fixed ids of the four shared graphs */
  function GroupId(c: Category): (id: int)
    requires c != Other
    ensures 1 <= id < FirstOtherId
  {
    match c
    case Temperature => 1
    case Power => 2
    case Voltage => 3
    case Fan => 4
  }

  /** The four shared graphs have four different ids */
  lemma GroupIdInjective(c: Category, c': Category)
    requires c != Other && c' != Other && c != c'
    ensures GroupId(c) != GroupId(c')
  {
  }

  /** ds_name of the four shared graphs */
  function GroupName(c: Category): string
    requires c != Other
  {
    match c
    case Temperature => "Temperatures"
    case Power => "Power Consumption"
    case Voltage => "Voltage Probes"
    case Fan => "Fan Speeds"
  }

  /** opt of a shared graph as series s writes it; only the temperature graph
      depends on the series (the vertical label follows its unit) */
  function GroupOpt(c: Category, s: Series): string
    requires c != Other
  {
    match c
    case Temperature =>
      "--slope-mode --vertical-label \"" + TempUnit(s.unit).1 + "\" --title \"" + DefTitle + ": Chassis Temperatures\" "
    case Power =>
      "--slope-mode --vertical-label \"Watts\" --title \"" + DefTitle + ": " + GroupName(Power) + "\" "
    case Voltage =>
      "--slope-mode --vertical-label \"Volts\" --title \"" + DefTitle + ": " + GroupName(Voltage) + "\" "
    case Fan =>
      "-X0 --slope-mode --vertical-label \"RPMs\" --title \"" + DefTitle + ": " + GroupName(Fan) + "\" "
  }

  /** Power, voltage and fan series all write the same opt, so the repeated
      overwrite changes nothing; the temperature opt depends only on the
      vertical label of the series' unit */
  lemma GroupOptRepeats(c: Category, s: Series, s': Series)
    requires c != Other
    ensures c != Temperature ==> GroupOpt(c, s) == GroupOpt(c, s')
    ensures c == Temperature && TempUnit(s.unit).1 == TempUnit(s'.unit).1 ==> GroupOpt(c, s) == GroupOpt(c, s')
  {
  }

  /** Vertical label and bounds of an "other" graph */
  function OtherAxis(unit: string): (r: (string, string, string))
    ensures unit == "%%" ==> r == ("%", " --upper=101 ", " --lower=0 ")
    ensures unit != "%%" ==> r.0 == unit && r.1 == "" && r.2 == ""
  {
    if unit == "%%" then ("%", " --upper=101 ", " --lower=0 ") else (unit, "", "")
  }

  /** opt of the "other" graph of series s: the title uses the label as given */
  function OtherOpt(s: Series): string {
    var axis := OtherAxis(s.unit);
    "--vertical-label \"" + axis.0 + "\" --title \"" + DefTitle + ": " + s.labelText + "\"" + axis.1 + axis.2
  }

  // ---------------------------------------------------------------------------
  // Counting and grouping
  // ---------------------------------------------------------------------------

  /** The category the cascade gives each series */
  function Categories(series: seq<Series>): (cats: seq<Category>)
    ensures |cats| == |series|
    ensures forall j | 0 <= j < |series| :: cats[j] == Classify(series[j])
  {
    seq(|series|, j requires 0 <= j < |series| => Classify(series[j]))
  }

  /** How many of the first n series fall in category c: the value of c's
      counter after n iterations */
  function CountBefore(cats: seq<Category>, c: Category, n: nat): nat
    requires n <= |cats|
  {
    if n == 0 then 0
    else CountBefore(cats, c, n - 1) + (if cats[n - 1] == c then 1 else 0)
  }

  /** Position of series j among the series of its category: its colour index,
      and for an "other" series the offset of its graph id from FirstOtherId */
  function Rank(cats: seq<Category>, j: nat): nat
    requires j < |cats|
  {
    CountBefore(cats, cats[j], j)
  }

  /** No category has more of the first n series than the palette has colours */
  predicate WithinPalette(cats: seq<Category>, colors: seq<string>, n: nat)
    requires n <= |cats|
  {
    forall c: Category :: CountBefore(cats, c, n) <= |colors|
  }

  lemma {:induction false} CountMonotone(cats: seq<Category>, c: Category, m: nat, n: nat)
    requires m <= n <= |cats|
    ensures CountBefore(cats, c, m) <= CountBefore(cats, c, n)
    decreases n
  {
    if m < n {
      CountMonotone(cats, c, m, n - 1);
    }
  }

  /** Ranks follow encounter order within a category */
  lemma RankIncreasing(cats: seq<Category>, i: nat, j: nat)
    requires i < j < |cats| && cats[i] == cats[j]
    ensures Rank(cats, i) < Rank(cats, j)
  {
    CountMonotone(cats, cats[i], i + 1, j);
  }

  lemma WithinPaletteMonotone(cats: seq<Category>, colors: seq<string>, m: nat, n: nat)
    requires m <= n <= |cats| && WithinPalette(cats, colors, n)
    ensures WithinPalette(cats, colors, m)
  {
    forall c: Category
      ensures CountBefore(cats, c, m) <= |colors|
    {
      CountMonotone(cats, c, m, n);
    }
  }

  /** Every rank below a category's count belongs to some series of it */
  lemma {:induction false} RankOnto(cats: seq<Category>, c: Category, n: nat, r: nat)
    requires n <= |cats| && r < CountBefore(cats, c, n)
    ensures exists j | 0 <= j < n :: cats[j] == c && Rank(cats, j) == r
  {
    if r < CountBefore(cats, c, n - 1) {
      RankOnto(cats, c, n - 1, r);
    } else {
      assert cats[n - 1] == c && Rank(cats, n - 1) == r;
    }
  }

  /** The shared graph of c after the first n series: each series of c, in
      encounter order, with its rank as colour index */
  function GroupTokens(series: seq<Series>, cats: seq<Category>, colors: seq<string>, c: Category, n: nat): seq<Token>
    requires |cats| == |series| && n <= |series| && CountBefore(cats, c, n) <= |colors|
  {
    if n == 0 then []
    else if cats[n - 1] == c then
      GroupTokens(series, cats, colors, c, n - 1) + SeriesTokens(colors, c, series[n - 1], n - 1, CountBefore(cats, c, n - 1))
    else GroupTokens(series, cats, colors, c, n - 1)
  }

  lemma {:induction false} GroupTokensLength(series: seq<Series>, cats: seq<Category>, colors: seq<string>, c: Category, n: nat)
    requires |cats| == |series| && n <= |series| && CountBefore(cats, c, n) <= |colors|
    ensures |GroupTokens(series, cats, colors, c, n)| == 3 * CountBefore(cats, c, n)
  {
    if n > 0 {
      GroupTokensLength(series, cats, colors, c, n - 1);
    }
  }

  /** The k-th series of a category occupies the k-th block of three tokens of
      its graph and is drawn in the k-th palette colour */
  lemma {:induction false} GroupTokensBlock(series: seq<Series>, cats: seq<Category>, colors: seq<string>, c: Category, n: nat, j: nat)
    requires |cats| == |series| && j < n <= |series| && CountBefore(cats, c, n) <= |colors|
    requires cats[j] == c
    ensures Rank(cats, j) < |colors|
    ensures 3 * Rank(cats, j) + 3 <= |GroupTokens(series, cats, colors, c, n)|
    ensures GroupTokens(series, cats, colors, c, n)[3 * Rank(cats, j)..3 * Rank(cats, j) + 3]
            == SeriesTokens(colors, c, series[j], j, Rank(cats, j))
  {
    CountMonotone(cats, c, j + 1, n);
    var prev := GroupTokens(series, cats, colors, c, n - 1);
    GroupTokensLength(series, cats, colors, c, n - 1);
    var r := Rank(cats, j);
    if j < n - 1 {
      GroupTokensBlock(series, cats, colors, c, n - 1, j);
      if cats[n - 1] == c {
        SliceOfAppendLeft(prev, SeriesTokens(colors, c, series[n - 1], n - 1, CountBefore(cats, c, n - 1)), 3 * r, 3 * r + 3);
      }
    } else {
      SliceOfAppendRight(prev, SeriesTokens(colors, c, series[j], j, r));
    }
  }

  /** Index of the last of the first n series in category c, or -1 */
  function LastIn(cats: seq<Category>, c: Category, n: nat): (r: int)
    requires n <= |cats|
    ensures -1 <= r < n
    ensures r >= 0 <==> CountBefore(cats, c, n) > 0
    ensures r >= 0 ==> cats[r] == c
  {
    if n == 0 then -1
    else if cats[n - 1] == c then n - 1
    else LastIn(cats, c, n - 1)
  }

  /** No series of c comes after the one LastIn finds */
  lemma {:induction false} LastInIsLast(cats: seq<Category>, c: Category, n: nat, j: nat)
    requires n <= |cats| && LastIn(cats, c, n) < j < n
    ensures cats[j] != c
  {
    if j < n - 1 {
      LastInIsLast(cats, c, n - 1, j);
    }
  }

  /** `$def[$id]` when set, and "" otherwise */
  function Existing(def: map<int, seq<Token>>, id: int): seq<Token> {
    if id in def then def[id] else []
  }

  /** The state of one shared graph after the first n series */
  ghost predicate SharedGraph(series: seq<Series>, cats: seq<Category>, colors: seq<string>, c: Category, n: nat,
                              def: map<int, seq<Token>>, opt: map<int, string>, dsName: map<int, string>)
    requires |cats| == |series| && c != Other && n <= |series| && CountBefore(cats, c, n) <= |colors|
  {
    && (GroupId(c) in def <==> CountBefore(cats, c, n) > 0)
    && (GroupId(c) in def ==>
          && def[GroupId(c)] == GroupTokens(series, cats, colors, c, n)
          && GroupId(c) in opt && opt[GroupId(c)] == GroupOpt(c, series[LastIn(cats, c, n)])
          && GroupId(c) in dsName && dsName[GroupId(c)] == GroupName(c))
  }

  /** The graph of "other" series j, at id FirstOtherId + its rank */
  ghost predicate OtherGraph(series: seq<Series>, cats: seq<Category>, colors: seq<string>, j: nat,
                             def: map<int, seq<Token>>, opt: map<int, string>, dsName: map<int, string>)
    requires |cats| == |series| && j < |series| && cats[j] == Other && Rank(cats, j) < |colors|
  {
    var id := FirstOtherId + Rank(cats, j);
    && id in def && def[id] == SeriesTokens(colors, Other, series[j], j, Rank(cats, j))
    && id in opt && opt[id] == OtherOpt(series[j])
    && id in dsName && dsName[id] == series[j].labelText
  }

  /** The graphs of the "other" series among the first n */
  ghost predicate OtherGraphs(series: seq<Series>, cats: seq<Category>, colors: seq<string>, n: nat,
                              def: map<int, seq<Token>>, opt: map<int, string>, dsName: map<int, string>)
    requires |cats| == |series| && n <= |series|
  {
    forall j {:trigger Rank(cats, j)} | 0 <= j < n && cats[j] == Other ::
      Rank(cats, j) < |colors| && OtherGraph(series, cats, colors, j, def, opt, dsName)
  }

  /** The ids in use after the first n series: the same in $def, $opt and
      $ds_name; 1-4 for the shared graphs, and one id from FirstOtherId on for
      each "other" series, with no gap */
  ghost predicate GraphIds(cats: seq<Category>, n: nat,
                           def: map<int, seq<Token>>, opt: map<int, string>, dsName: map<int, string>)
    requires n <= |cats|
  {
    && opt.Keys == def.Keys && dsName.Keys == def.Keys
    && (forall id | id in def :: 1 <= id <= 4 || FirstOtherId <= id < FirstOtherId + CountBefore(cats, Other, n))
    && (forall id | FirstOtherId <= id < FirstOtherId + CountBefore(cats, Other, n) :: id in def)
  }

  /** The four shared graphs after the first n series */
  ghost predicate SharedGraphs(series: seq<Series>, cats: seq<Category>, colors: seq<string>, n: nat,
                               def: map<int, seq<Token>>, opt: map<int, string>, dsName: map<int, string>)
    requires |cats| == |series| && n <= |series| && WithinPalette(cats, colors, n)
  {
    forall c | c != Other :: SharedGraph(series, cats, colors, c, n, def, opt, dsName)
  }

  /** $def, $opt and $ds_name after the first n series */
  ghost predicate Built(series: seq<Series>, cats: seq<Category>, colors: seq<string>, n: nat,
                        def: map<int, seq<Token>>, opt: map<int, string>, dsName: map<int, string>)
    requires |cats| == |series| && n <= |series| && WithinPalette(cats, colors, n)
  {
    && GraphIds(cats, n, def, opt, dsName)
    && SharedGraphs(series, cats, colors, n, def, opt, dsName)
    && OtherGraphs(series, cats, colors, n, def, opt, dsName)
  }

  /** A series of another category, written at another id, leaves the shared
      graph of c as it was */
  lemma {:induction false} SharedGraphKept(series: seq<Series>, cats: seq<Category>, colors: seq<string>, c: Category, i: nat,
                        def: map<int, seq<Token>>, opt: map<int, string>, dsName: map<int, string>,
                        id: int, d: seq<Token>, o: string, n: string)
    requires |cats| == |series| && c != Other && i < |series| && CountBefore(cats, c, i + 1) <= |colors|
    requires cats[i] != c && id != GroupId(c)
    requires SharedGraph(series, cats, colors, c, i, def, opt, dsName)
    ensures SharedGraph(series, cats, colors, c, i + 1, def[id := d], opt[id := o], dsName[id := n])
  {
    assert LastIn(cats, c, i + 1) == LastIn(cats, c, i);
    assert GroupTokens(series, cats, colors, c, i + 1) == GroupTokens(series, cats, colors, c, i);
  }

  /** A series of c is appended to the shared graph of c, which takes the
      series' opt and keeps its name */
  lemma {:induction false} SharedGraphGrown(series: seq<Series>, cats: seq<Category>, colors: seq<string>, c: Category, i: nat,
                         def: map<int, seq<Token>>, opt: map<int, string>, dsName: map<int, string>)
    requires |cats| == |series| && c != Other && i < |series| && CountBefore(cats, c, i + 1) <= |colors|
    requires cats[i] == c
    requires SharedGraph(series, cats, colors, c, i, def, opt, dsName)
    ensures SharedGraph(series, cats, colors, c, i + 1,
                        def[GroupId(c) := Existing(def, GroupId(c)) + SeriesTokens(colors, c, series[i], i, CountBefore(cats, c, i))],
                        opt[GroupId(c) := GroupOpt(c, series[i])],
                        dsName[GroupId(c) := GroupName(c)])
  {
    assert LastIn(cats, c, i + 1) == i;
    GroupTokensLength(series, cats, colors, c, i);
    assert GroupTokens(series, cats, colors, c, i + 1) == Existing(def, GroupId(c)) + SeriesTokens(colors, c, series[i], i, CountBefore(cats, c, i));
  }

  /** A write at another id leaves the graph of "other" series j as it was */
  lemma {:induction false} OtherGraphKept(series: seq<Series>, cats: seq<Category>, colors: seq<string>, j: nat,
                       def: map<int, seq<Token>>, opt: map<int, string>, dsName: map<int, string>,
                       id: int, d: seq<Token>, o: string, n: string)
    requires |cats| == |series| && j < |series| && cats[j] == Other && Rank(cats, j) < |colors|
    requires id != FirstOtherId + Rank(cats, j)
    requires OtherGraph(series, cats, colors, j, def, opt, dsName)
    ensures OtherGraph(series, cats, colors, j, def[id := d], opt[id := o], dsName[id := n])
  {
  }

  /** A series that is not "other", written at a shared id, leaves every
      "other" graph as it was */
  lemma {:induction false} OtherGraphsKept(series: seq<Series>, cats: seq<Category>, colors: seq<string>, i: nat,
                        def: map<int, seq<Token>>, opt: map<int, string>, dsName: map<int, string>,
                        id: int, d: seq<Token>, o: string, n: string)
    requires |cats| == |series| && i < |series| && cats[i] != Other && id < FirstOtherId
    requires OtherGraphs(series, cats, colors, i, def, opt, dsName)
    ensures OtherGraphs(series, cats, colors, i + 1, def[id := d], opt[id := o], dsName[id := n])
  {
    var def', opt', dsName' := def[id := d], opt[id := o], dsName[id := n];
    forall j | 0 <= j < i + 1 && cats[j] == Other
      ensures Rank(cats, j) < |colors| && OtherGraph(series, cats, colors, j, def', opt', dsName')
    {
      assert j < i;
      OtherGraphKept(series, cats, colors, j, def, opt, dsName, id, d, o, n);
    }
  }

  /** An "other" series opens the graph at the next free id and leaves the
      graphs of the earlier ones as they were */
  lemma {:induction false} OtherGraphsGrown(series: seq<Series>, cats: seq<Category>, colors: seq<string>, i: nat,
                         def: map<int, seq<Token>>, opt: map<int, string>, dsName: map<int, string>)
    requires |cats| == |series| && i < |series| && cats[i] == Other && CountBefore(cats, Other, i) < |colors|
    requires OtherGraphs(series, cats, colors, i, def, opt, dsName)
    ensures OtherGraphs(series, cats, colors, i + 1,
                        def[FirstOtherId + CountBefore(cats, Other, i) := SeriesTokens(colors, Other, series[i], i, CountBefore(cats, Other, i))],
                        opt[FirstOtherId + CountBefore(cats, Other, i) := OtherOpt(series[i])],
                        dsName[FirstOtherId + CountBefore(cats, Other, i) := series[i].labelText])
  {
    var k := CountBefore(cats, Other, i);
    var id, d, o, n := FirstOtherId + k, SeriesTokens(colors, Other, series[i], i, k), OtherOpt(series[i]), series[i].labelText;
    var def', opt', dsName' := def[id := d], opt[id := o], dsName[id := n];
    forall j | 0 <= j < i + 1 && cats[j] == Other
      ensures Rank(cats, j) < |colors| && OtherGraph(series, cats, colors, j, def', opt', dsName')
    {
      if j < i {
        CountMonotone(cats, Other, j + 1, i);
        OtherGraphKept(series, cats, colors, j, def, opt, dsName, id, d, o, n);
      }
    }
  }

  /** A series of c grows the shared graph of c and leaves the other three */
  lemma {:induction false} SharedGraphAfterShared(series: seq<Series>, cats: seq<Category>, colors: seq<string>, i: nat, c: Category, c': Category,
                               def: map<int, seq<Token>>, opt: map<int, string>, dsName: map<int, string>)
    requires |cats| == |series| && i < |series| && WithinPalette(cats, colors, i) && WithinPalette(cats, colors, i + 1)
    requires c != Other && c' != Other && cats[i] == c
    requires SharedGraph(series, cats, colors, c', i, def, opt, dsName)
    ensures CountBefore(cats, c, i) < |colors|
    ensures SharedGraph(series, cats, colors, c', i + 1,
                        def[GroupId(c) := Existing(def, GroupId(c)) + SeriesTokens(colors, c, series[i], i, CountBefore(cats, c, i))],
                        opt[GroupId(c) := GroupOpt(c, series[i])],
                        dsName[GroupId(c) := GroupName(c)])
  {
    assert CountBefore(cats, c, i + 1) == CountBefore(cats, c, i) + 1;
    if c' == c {
      SharedGraphGrown(series, cats, colors, c, i, def, opt, dsName);
    } else {
      var id := GroupId(c);
      var d := Existing(def, id) + SeriesTokens(colors, c, series[i], i, CountBefore(cats, c, i));
      SharedGraphKept(series, cats, colors, c', i, def, opt, dsName, id, d, GroupOpt(c, series[i]), GroupName(c));
    }
  }

  lemma {:induction false} SharedGraphsAfterShared(series: seq<Series>, cats: seq<Category>, colors: seq<string>, i: nat, c: Category,
                                def: map<int, seq<Token>>, opt: map<int, string>, dsName: map<int, string>)
    requires |cats| == |series| && i < |series| && WithinPalette(cats, colors, i) && WithinPalette(cats, colors, i + 1)
    requires c != Other && cats[i] == c
    requires SharedGraphs(series, cats, colors, i, def, opt, dsName)
    ensures CountBefore(cats, c, i) < |colors|
    ensures SharedGraphs(series, cats, colors, i + 1,
                         def[GroupId(c) := Existing(def, GroupId(c)) + SeriesTokens(colors, c, series[i], i, CountBefore(cats, c, i))],
                         opt[GroupId(c) := GroupOpt(c, series[i])],
                         dsName[GroupId(c) := GroupName(c)])
  {
    SharedGraphAfterShared(series, cats, colors, i, c, c, def, opt, dsName);
    var def' := def[GroupId(c) := Existing(def, GroupId(c)) + SeriesTokens(colors, c, series[i], i, CountBefore(cats, c, i))];
    var opt', dsName' := opt[GroupId(c) := GroupOpt(c, series[i])], dsName[GroupId(c) := GroupName(c)];
    var next := i + 1;
    forall c' | c' != Other
      ensures SharedGraph(series, cats, colors, c', next, def', opt', dsName')
    {
      SharedGraphAfterShared(series, cats, colors, i, c, c', def, opt, dsName);
    }
  }

  /** An "other" series, written at an id past the shared ones, leaves the
      four shared graphs as they were */
  lemma {:induction false} SharedGraphsAfterOther(series: seq<Series>, cats: seq<Category>, colors: seq<string>, i: nat,
                               def: map<int, seq<Token>>, opt: map<int, string>, dsName: map<int, string>,
                               id: int, d: seq<Token>, o: string, n: string)
    requires |cats| == |series| && i < |series| && WithinPalette(cats, colors, i) && WithinPalette(cats, colors, i + 1)
    requires cats[i] == Other && FirstOtherId <= id
    requires SharedGraphs(series, cats, colors, i, def, opt, dsName)
    ensures SharedGraphs(series, cats, colors, i + 1, def[id := d], opt[id := o], dsName[id := n])
  {
    var def', opt', dsName' := def[id := d], opt[id := o], dsName[id := n];
    var next := i + 1;
    forall c' | c' != Other
      ensures SharedGraph(series, cats, colors, c', next, def', opt', dsName')
    {
      assert SharedGraph(series, cats, colors, c', i, def, opt, dsName);
      SharedGraphKept(series, cats, colors, c', i, def, opt, dsName, id, d, o, n);
    }
  }

  /** The body of the temperature, power, voltage and fan branches: the series
      is appended to the graph with the category's fixed id, in the colour
      its k-th place in the category selects, and the graph's opt and name are
      (re)written */
  method AddToShared(series: seq<Series>, ghost cats: seq<Category>, colors: seq<string>, i: nat, c: Category, k: nat,
                     def: map<int, seq<Token>>, opt: map<int, string>, dsName: map<int, string>)
    returns (def': map<int, seq<Token>>, opt': map<int, string>, dsName': map<int, string>)
    requires |cats| == |series| && i < |series| && WithinPalette(cats, colors, i) && WithinPalette(cats, colors, i + 1)
    requires c != Other && cats[i] == c && k == CountBefore(cats, c, i)
    requires Built(series, cats, colors, i, def, opt, dsName)
    ensures Built(series, cats, colors, i + 1, def', opt', dsName')
  {
    var id := GroupId(c);
    SharedGraphsAfterShared(series, cats, colors, i, c, def, opt, dsName);
    var d, o, n := Existing(def, id) + SeriesTokens(colors, c, series[i], i, k), GroupOpt(c, series[i]), GroupName(c);
    OtherGraphsKept(series, cats, colors, i, def, opt, dsName, id, d, o, n);
    assert CountBefore(cats, Other, i + 1) == CountBefore(cats, Other, i);
    def', opt', dsName' := def[id := d], opt[id := o], dsName[id := n];
  }

  /** The body of the "other" branch: the series gets a graph of its own at
      id `id`, drawn in the colour of its k-th place among "other" series */
  method AddOther(series: seq<Series>, ghost cats: seq<Category>, colors: seq<string>, i: nat, id: int, k: nat,
                  def: map<int, seq<Token>>, opt: map<int, string>, dsName: map<int, string>)
    returns (def': map<int, seq<Token>>, opt': map<int, string>, dsName': map<int, string>)
    requires |cats| == |series| && i < |series| && WithinPalette(cats, colors, i) && WithinPalette(cats, colors, i + 1)
    requires cats[i] == Other && k == CountBefore(cats, Other, i) && id == FirstOtherId + k
    requires Built(series, cats, colors, i, def, opt, dsName)
    ensures Built(series, cats, colors, i + 1, def', opt', dsName')
  {
    assert CountBefore(cats, Other, i + 1) == k + 1;
    var d, o, n := SeriesTokens(colors, Other, series[i], i, k), OtherOpt(series[i]), series[i].labelText;
    SharedGraphsAfterOther(series, cats, colors, i, def, opt, dsName, id, d, o, n);
    OtherGraphsGrown(series, cats, colors, i, def, opt, dsName);
    def', opt', dsName' := def[id := d], opt[id := o], dsName[id := n];
  }

  /** Before the loop no graph exists */
  lemma BuiltInitially(series: seq<Series>, cats: seq<Category>, colors: seq<string>)
    requires |cats| == |series|
    ensures WithinPalette(cats, colors, 0)
    ensures Built(series, cats, colors, 0, map[], map[], map[])
  {
  }

  /** Counts of each category among the first i series, as the five cursors hold them */
  ghost predicate Cursors(cats: seq<Category>, i: nat, t: nat, w: nat, v: nat, f: nat, o: nat)
    requires i <= |cats|
  {
    && t == CountBefore(cats, Temperature, i) && w == CountBefore(cats, Power, i)
    && v == CountBefore(cats, Voltage, i) && f == CountBefore(cats, Fan, i)
    && o == CountBefore(cats, Other, i)
  }

  /** One pass of the main loop: the if/elseif cascade on series i */
  method Step(series: seq<Series>, ghost cats: seq<Category>, colors: seq<string>, i: nat,
              t: nat, w: nat, v: nat, f: nat, o: nat, idOther: int,
              def: map<int, seq<Token>>, opt: map<int, string>, dsName: map<int, string>)
    returns (t': nat, w': nat, v': nat, f': nat, o': nat, idOther': int,
             def': map<int, seq<Token>>, opt': map<int, string>, dsName': map<int, string>)
    requires cats == Categories(series) && i < |series|
    requires WithinPalette(cats, colors, i) && WithinPalette(cats, colors, i + 1)
    requires Cursors(cats, i, t, w, v, f, o) && idOther == FirstOtherId + o
    requires Built(series, cats, colors, i, def, opt, dsName)
    ensures Cursors(cats, i + 1, t', w', v', f', o') && idOther' == FirstOtherId + o'
    ensures Built(series, cats, colors, i + 1, def', opt', dsName')
  {
    var s := series[i];
    t', w', v', f', o', idOther' := t, w, v, f, o, idOther;
    if IsTemperature(s) {
      def', opt', dsName' := AddToShared(series, cats, colors, i, Temperature, t, def, opt, dsName);
      t' := t + 1;
    } else if IsPower(s) {
      def', opt', dsName' := AddToShared(series, cats, colors, i, Power, w, def, opt, dsName);
      w' := w + 1;
    } else if IsVoltage(s) {
      def', opt', dsName' := AddToShared(series, cats, colors, i, Voltage, v, def, opt, dsName);
      v' := v + 1;
    } else if IsFan(s) {
      def', opt', dsName' := AddToShared(series, cats, colors, i, Fan, f, def, opt, dsName);
      f' := f + 1;
    } else {
      def', opt', dsName' := AddOther(series, cats, colors, i, idOther, o, def, opt, dsName);
      o' := o + 1;
      idOther' := idOther + 1;
    }
  }

  /** Every one of the first n series is drawn: a series of a shared category
      as the block of its rank in that category's graph, in the colour of its
      rank; an "other" series alone in the graph at FirstOtherId + its rank */
  lemma {:induction false} EverySeriesDrawn(series: seq<Series>, cats: seq<Category>, colors: seq<string>, n: nat,
                                            def: map<int, seq<Token>>, opt: map<int, string>, dsName: map<int, string>, j: nat)
    requires |cats| == |series| && j < n <= |series| && WithinPalette(cats, colors, n)
    requires Built(series, cats, colors, n, def, opt, dsName)
    ensures Rank(cats, j) < |colors|
    ensures cats[j] != Other ==>
      && GroupId(cats[j]) in def
      && 3 * Rank(cats, j) + 3 <= |def[GroupId(cats[j])]|
      && def[GroupId(cats[j])][3 * Rank(cats, j)..3 * Rank(cats, j) + 3] == SeriesTokens(colors, cats[j], series[j], j, Rank(cats, j))
    ensures cats[j] == Other ==>
      && FirstOtherId + Rank(cats, j) in def
      && def[FirstOtherId + Rank(cats, j)] == SeriesTokens(colors, Other, series[j], j, Rank(cats, j))
  {
    var c := cats[j];
    CountMonotone(cats, c, j + 1, n);
    if c != Other {
      assert SharedGraph(series, cats, colors, c, n, def, opt, dsName);
      GroupTokensBlock(series, cats, colors, c, n, j);
    } else {
      assert Rank(cats, j) < |colors| && OtherGraph(series, cats, colors, j, def, opt, dsName);
    }
  }

  /** Graph ids are distinct: "other" series never share an id with each
      other or with the four shared graphs */
  lemma OtherIdsDistinct(cats: seq<Category>, i: nat, j: nat, c: Category)
    requires i < j < |cats| && cats[i] == Other && cats[j] == Other && c != Other
    ensures FirstOtherId + Rank(cats, i) != FirstOtherId + Rank(cats, j)
    ensures GroupId(c) < FirstOtherId + Rank(cats, i)
  {
    RankIncreasing(cats, i, j);
  }

  /** The main loop over a palette `colors`: returns $def, $opt and $ds_name
      as Built describes them, with one colour cursor per category */
  method BuildGraphs(series: seq<Series>, colors: seq<string>) returns (def: map<int, seq<Token>>, opt: map<int, string>, dsName: map<int, string>)
    requires WithinPalette(Categories(series), colors, |series|)
    ensures Built(series, Categories(series), colors, |series|, def, opt, dsName)
  {
    ghost var cats := Categories(series);
    def, opt, dsName := map[], map[], map[];
    var t, w, v, f, o := 0, 0, 0, 0, 0;
    var idOther := FirstOtherId;
    var i := 0;
    BuiltInitially(series, cats, colors);
    while i < |series|
      invariant 0 <= i <= |series| && WithinPalette(cats, colors, i)
      invariant Cursors(cats, i, t, w, v, f, o) && idOther == FirstOtherId + o
      invariant Built(series, cats, colors, i, def, opt, dsName)
    {
      WithinPaletteMonotone(cats, colors, i + 1, |series|);
      t, w, v, f, o, idOther, def, opt, dsName := Step(series, cats, colors, i, t, w, v, f, o, idOther, def, opt, dsName);
      i := i + 1;
    }
  }

  /** The template as written: the main loop over the palette it assigns last */
  method SensorGraphs(series: seq<Series>) returns (def: map<int, seq<Token>>, opt: map<int, string>, dsName: map<int, string>)
    requires WithinPalette(Categories(series), Palette, |series|)
    ensures Built(series, Categories(series), Palette, |series|, def, opt, dsName)
  {
    def, opt, dsName := BuildGraphs(series, Palette);
  }
}
