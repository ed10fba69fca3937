# PNP4Nagios sensor and network graph templates in Dafny

This project models two PNP4Nagios graph templates and proves properties about them. Each template is a PHP script that turns a host's list of performance-data sources into RRDtool graph definitions. The graph definitions are the `$def`, `$opt` and `$ds_name` arrays.

- **`check_sensors_ikus.php`** (module `Sensors`)
  - The loop classifies every series with an if/elseif cascade. The order is temperature, then power, then voltage, then fan, and everything else is "other".
  - Each category rewrites its series' label in its own way.
  - Temperature, power, voltage and fan series are appended to four shared graphs with ids 1–4, in the order they arrive.
  - Each "other" series gets a graph of its own, at ids 5, 6, and so on.
  - Each category keeps its own cursor into the colour palette.
  - `tempunit` maps a unit code to a symbol and a vertical label.
- **`stat_net.php`** (module `StatNet`)
  - The data sources come in in/out pairs, and each pair gets one graph.
  - The pair's first source supplies the device name (`<dev>_in`), resets the graph and sets its title and units.
  - Every source appends its own DEF, its draw entry (style taken from the `in`/`out` map), a left-justified legend and four summaries.
  - The pair's second source closes the graph with four bandwidth reference lines.

Supporting modules:

- `Strings` writes out, as predicates, exactly the regular expressions the templates use. It also models PHP's decimal rendering of integer keys (`"var$KEY"`, `"v$k"`).
- `Rrd` keeps each `rrd::` library call as an uninterpreted token. A definition string built with `.=` becomes the sequence of its tokens.
- `Seqs` holds small facts about sequence concatenation and map update.

## How each loop is modelled

Both loops are methods over maps: `$def`, `$opt`, `$ds_name`, `$dev` and `$UNIT` are `map<int, …>` values that the loop body updates, and the loop bodies split into small methods. Each loop carries an invariant, `Built`, which states the whole state after the first n sources as a function of those sources:

- **`Sensors.Built`**
  - A shared graph holds `GroupTokens`: the tokens of every series of its category so far, in order.
  - A shared graph's opt is that of the *last* series of the category.
  - The graph of an "other" series sits at `5 + rank`.
- **`StatNet.Built`**
  - `GroupDef` is the first source's tokens, then the second source's tokens and the reference lines once the pair is complete.

The palette is a parameter of `Sensors.BuildGraphs`. `Sensors.SensorGraphs` runs the loop with the template's own palette.

## Behaviour worth noting

- **Temperature label.** A trailing "Temp" is stripped, then a trailing "TIN", so "xTINTemp" loses both. The group `(.*)` may be empty, so "Temp" alone becomes "".
- **Power label.** A trailing "Power" is stripped only when at least one character precedes it, because the pattern is `(.+)`.
- **Voltage label.** The "Probe" rewrite runs after the prefix drop and the underscore replacement, so "V1_V2" becomes "Probe 2" (`VoltageLabelDropsPrefix`). "V12_", "V_x" and "VCORE" do not match the prefix pattern and keep their text.
- **Temperature opt.** Every temperature series rewrites the temperature graph's opt with the vertical label of its own unit, so the final value follows the last temperature series. The power, voltage and fan series write the same opt every time (`GroupOptRepeats`).
- **Fan and power formats.** The fan branch sets `$vlabel = "Volts"`, which nothing reads. The power summary format ends in "A" while the axis says "Watts".

## Model

| member | source | states |
|---|---|---|
| Sensors.TempUnit | pnp4nagios/check_sensors_ikus.php:79-103 | "F", "K" and "R" give Fahrenheit, Kelvin and Rankine. Every other code gives Celsius, although the default comes first in the switch. The symbol is "K" for Kelvin and "°" plus the initial otherwise. |
| Sensors.TempUnitFallback | pnp4nagios/check_sensors_ikus.php:84-87 | An unknown or empty code reads exactly as "C": (°C, Celsius). |
| Sensors.TempUnitConsistent | pnp4nagios/check_sensors_ikus.php:79-103 | Two codes with the same vertical label have the same symbol. |
| Sensors.IsTemperature | pnp4nagios/check_sensors_ikus.php:115-120 | The first test of the cascade: `/^temp/`, `/TIN$/`, `/Temp$/`, `/Physicalid\d/`, `/Core\d/` or unit "C", each pattern written out as a predicate. |
| Sensors.IsPower | pnp4nagios/check_sensors_ikus.php:144 | The power test: `/^W/` or `/Power$/`. |
| Sensors.IsVoltage | pnp4nagios/check_sensors_ikus.php:167-172 | The voltage test: `/^V/`, `/^in\d$/`, `/^AVCC$/`, `/V$/`, `/^3VSB$/` or unit "V". |
| Sensors.IsFan | pnp4nagios/check_sensors_ikus.php:198 | The fan test: `/^fan/i` with ASCII case folding, or unit "RPM". |
| Sensors.Classify | pnp4nagios/check_sensors_ikus.php:115-217 | The if/elseif cascade: the first category whose test holds, and "other" when none does. |
| Sensors.SharedIffSomeTest | pnp4nagios/check_sensors_ikus.php:115-217 | A series goes to one of the four shared graphs exactly when one of the four tests holds, and to a graph of its own otherwise. |
| Sensors.FirstMatchWins | pnp4nagios/check_sensors_ikus.php:115-217 | A series lands in a category exactly when that category's test holds and every earlier test fails (all five cases, both directions). |
| Sensors.CelsiusUnitIsTemperature | pnp4nagios/check_sensors_ikus.php:120 | Unit "C" always gives temperature, whatever the label. |
| Sensors.VoltUnitIsVoltageAfterEarlierTests | pnp4nagios/check_sensors_ikus.php:172 | Unit "V" gives voltage exactly when the temperature and power tests fail. |
| Sensors.RpmUnitIsFanAfterEarlierTests | pnp4nagios/check_sensors_ikus.php:198 | Unit "RPM" gives fan exactly when the three earlier tests fail. |
| Sensors.NoFollowedByDigitWithoutFirst | pnp4nagios/check_sensors_ikus.php:118-119 | `/Physicalid\d/` and `/Core\d/` cannot match a label that lacks the pattern's first letter. |
| Sensors.PowerBeforeVoltage | pnp4nagios/check_sensors_ikus.php:144-172 | "V12_Power" passes the voltage test but is classified as power. |
| Sensors.TemperatureBeforeFan | pnp4nagios/check_sensors_ikus.php:115-198 | "temp1" with unit "RPM" passes the fan test but is classified as temperature. |
| Sensors.StripSuffix | pnp4nagios/check_sensors_ikus.php:126-127 | The greedy `^(.*)X$` removes exactly one trailing X, and leaves a label without X unchanged. |
| Sensors.StripSuffixOf | pnp4nagios/check_sensors_ikus.php:126-127 | Stripping X from t + X gives back t. |
| Sensors.TemperatureLabel | pnp4nagios/check_sensors_ikus.php:126-128 | The rewritten temperature label contains no underscore. |
| Sensors.ReplaceAbsent | pnp4nagios/check_sensors_ikus.php:128 | A label without underscores is unchanged by the underscore replacement. |
| Sensors.TemperatureLabelOfTemp | pnp4nagios/check_sensors_ikus.php:126 | "Temp" alone becomes the empty label. |
| Sensors.TemperatureLabelOfCpu | pnp4nagios/check_sensors_ikus.php:126-128 | "CPU0Temp" becomes "CPU0". |
| Sensors.TemperatureLabelStripsBoth | pnp4nagios/check_sensors_ikus.php:126-128 | For any a, a + "TIN" + "Temp" loses both suffixes, "Temp" first. |
| Sensors.TemperatureLabelStripsTemp | pnp4nagios/check_sensors_ikus.php:126-128 | When a does not end in "TIN", a + "Temp" loses only "Temp". |
| Sensors.PowerLabel | pnp4nagios/check_sensors_ikus.php:147 | A trailing "Power" is removed exactly when at least one character precedes it; otherwise the label is unchanged. |
| Sensors.PowerLabelExamples | pnp4nagios/check_sensors_ikus.php:147 | "Power" stays "Power", and x + "Power" becomes x for any non-empty x. |
| Sensors.VoltagePrefixUnique | pnp4nagios/check_sensors_ikus.php:175 | `\d+` followed by `_` can only end where the run of digits ends, so the pattern has at most one match. |
| Sensors.DropVoltagePrefix | pnp4nagios/check_sensors_ikus.php:175 | The label changes exactly when it matches `^V(\d+)_(.+)`, and then becomes the text after the `_`. |
| Sensors.DropVoltagePrefixKeeps | pnp4nagios/check_sensors_ikus.php:175 | "V12_", "V_x" and "VCORE" do not match the pattern and keep their text. |
| Sensors.DropVoltagePrefixOf | pnp4nagios/check_sensors_ikus.php:175 | "V<digits>_<rest>" becomes `<rest>` when `<rest>` is non-empty. |
| Sensors.VoltageLabelDropsPrefix | pnp4nagios/check_sensors_ikus.php:175-179 | "V<digits>_<rest>" is labelled as `<rest>` with underscores replaced, and the "Probe" rewrite is still applied afterwards. |
| Sensors.VoltageLabelBareProbe | pnp4nagios/check_sensors_ikus.php:175-179 | A bare "V<digits>" becomes "Probe <digits>". |
| Sensors.ProbeName | pnp4nagios/check_sensors_ikus.php:179 | The label changes exactly when it is "V" followed by one or more digits, and then becomes "Probe " and the digits. |
| Sensors.VoltageLabel | pnp4nagios/check_sensors_ikus.php:175-179 | The three rewrites in source order. The result contains no underscore. |
| Sensors.DisplayLabel | pnp4nagios/check_sensors_ikus.php:126-213 | The label each category draws: TemperatureLabel, PowerLabel, VoltageLabel, or the label unchanged for fans and "other" series. |
| Sensors.DisplayLabelShape | pnp4nagios/check_sensors_ikus.php:126-213 | Fan and "other" series keep their label. Temperature and voltage labels lose every underscore, and a power label never grows. |
| Sensors.CelsiusExample | pnp4nagios/check_sensors_ikus.php:115-128 | ("CPU0Temp", "C") is a temperature series drawn as "CPU0". |
| Sensors.VoltageProbeExample | pnp4nagios/check_sensors_ikus.php:115-179 | ("V12", "V") is a voltage series drawn as "Probe 12". |
| Sensors.FanExample | pnp4nagios/check_sensors_ikus.php:115-213 | ("FAN1", "RPM") fails every earlier test, is a fan series and keeps its label. |
| Sensors.Format | pnp4nagios/check_sensors_ikus.php:140-235 | The summary format of each category: `%4.1lf` and the temperature symbol of the series' own unit, `%8.2lf A`, `%8.2lf V`, `%6.0lf RPM`, or `%3.4lf` and the unit of an "other" series verbatim. |
| Sensors.SeriesTokens | pnp4nagios/check_sensors_ikus.php:133-140 | The tokens one series adds. |
| Sensors.SeriesTokensShape | pnp4nagios/check_sensors_ikus.php:133-140 | A series adds three tokens on its own variable: a DEF of its RRD file and DS, a LINE1 in the palette colour of its rank with the category's label, and a LAST/MAX/AVERAGE summary in the category's format. |
| Sensors.GroupId | pnp4nagios/check_sensors_ikus.php:63-67 | The four shared graphs use ids 1 to 4, all below the first "other" id, 5. |
| Sensors.GroupIdInjective | pnp4nagios/check_sensors_ikus.php:63-66 | The four shared categories have four different graph ids. |
| Sensors.GroupName | pnp4nagios/check_sensors_ikus.php:130-200 | The ds_name of each shared graph: "Temperatures", "Power Consumption", "Voltage Probes", "Fan Speeds". |
| Sensors.GroupOpt | pnp4nagios/check_sensors_ikus.php:132-205 | The opt each shared branch writes; only the temperature one depends on the series, through the vertical label of its unit. |
| Sensors.GroupOptRepeats | pnp4nagios/check_sensors_ikus.php:132-205 | Power, voltage and fan series all write the same opt. The temperature opt depends only on the vertical label of the series' unit. |
| Sensors.OtherAxis | pnp4nagios/check_sensors_ikus.php:219-227 | Unit "%%" gives the vertical label "%" with the bounds `--upper=101` and `--lower=0`. Any other unit is the vertical label verbatim, with no bounds. |
| Sensors.OtherOpt | pnp4nagios/check_sensors_ikus.php:219-230 | The opt of an "other" graph: the vertical label and bounds from OtherAxis, and a title that uses the label as given. |
| Sensors.CountMonotone | pnp4nagios/check_sensors_ikus.php:53-57 | A category's counter never decreases as the loop advances. |
| Sensors.RankIncreasing | pnp4nagios/check_sensors_ikus.php:139-234 | Within a category, a later series gets a strictly higher colour index, so colours follow encounter order. |
| Sensors.WithinPaletteMonotone | pnp4nagios/check_sensors_ikus.php:46-50 | If the palette suffices for n series, it suffices for every prefix. |
| Sensors.RankOnto | pnp4nagios/check_sensors_ikus.php:139-234 | Every colour index below a category's count is used by one of its series, so no palette entry is skipped. |
| Sensors.GroupTokensLength | pnp4nagios/check_sensors_ikus.php:133-140 | A shared graph holds three tokens per series of its category. |
| Sensors.GroupTokensBlock | pnp4nagios/check_sensors_ikus.php:133-213 | The k-th series of a category occupies the k-th block of three tokens of that category's graph, drawn in palette colour k. |
| Sensors.LastIn | pnp4nagios/check_sensors_ikus.php:132 | Returns the index of the last series of the category among the first n, or -1 exactly when there is none. |
| Sensors.LastInIsLast | pnp4nagios/check_sensors_ikus.php:132 | No series of the category comes after the one LastIn returns. |
| Sensors.AddToShared | pnp4nagios/check_sensors_ikus.php:130-213 | A temperature, power, voltage or fan branch appends the series to its category's graph and rewrites that graph's opt and ds_name. This preserves the loop invariant. |
| Sensors.AddOther | pnp4nagios/check_sensors_ikus.php:217-238 | The "other" branch writes a fresh graph at id 5 + o with `=`, using the raw label as ds_name. This preserves the loop invariant. |
| Sensors.BuiltInitially | pnp4nagios/check_sensors_ikus.php:53-67 | Before the loop no graph exists, and the counters are 0. |
| Sensors.Step | pnp4nagios/check_sensors_ikus.php:112-240 | One pass of the cascade advances only the counter of the series' category (`$id_other` along with `$o`) and keeps the invariant. |
| Sensors.BuildGraphs | pnp4nagios/check_sensors_ikus.php:110-241 | After the loop, `$def`, `$opt` and `$ds_name` are exactly as `Built` describes them, for any palette large enough for every category. |
| Sensors.SensorGraphs | pnp4nagios/check_sensors_ikus.php:46-241 | The same, with the template's 21-colour palette. |
| Sensors.EverySeriesDrawn | pnp4nagios/check_sensors_ikus.php:133-238 | Every series is drawn in the graph of its category, at the block of its rank and in the colour of its rank. An "other" series is alone at 5 + its rank. |
| Sensors.OtherIdsDistinct | pnp4nagios/check_sensors_ikus.php:63-67 | Two "other" series never share a graph id, and no "other" id collides with ids 1 to 4. |
| Strings.ReplaceAll | pnp4nagios/check_sensors_ikus.php:128 | Every `_` becomes a space and every other character stays, so the length is kept. |
| Strings.DigitRunEnd | pnp4nagios/check_sensors_ikus.php:175 | `\d+` is greedy: the run of digits ends at the first non-digit. |
| Strings.NatToDecimal | pnp4nagios/check_sensors_ikus.php:134 | The rendered key is a non-empty string of digits. |
| Strings.DecimalRoundTrip | pnp4nagios/check_sensors_ikus.php:134 | Reading the rendered key back gives the key. |
| Strings.NatToDecimalInjective | pnp4nagios/check_sensors_ikus.php:134 | Distinct keys give distinct RRD variable names. |
| StatNet.Group | pnp4nagios/stat_net.php:44 | Key k belongs to group k/2 + 1, the group whose keys are 2(g-1) and 2(g-1)+1. |
| StatNet.StyleOf | pnp4nagios/stat_net.php:29-38 | "in" draws as AREA in #0c0 and "out" as LINE1 in #029. Any other short name gives an empty type and colour. |
| StatNet.DeviceOf | pnp4nagios/stat_net.php:47-48 | A device is found exactly when the name ends in "_in", and the name is then the device followed by "_in". |
| StatNet.DeviceOfRoundTrip | pnp4nagios/stat_net.php:47-48 | The greedy group takes everything before the final "_in". |
| StatNet.ShortName | pnp4nagios/stat_net.php:58-62 | The name loses a leading "dev_" when it has one, and is unchanged otherwise. |
| StatNet.ShortNameRoundTrip | pnp4nagios/stat_net.php:58-62 | The short name of dev + "_" + rest is rest. |
| StatNet.LeftJustify | pnp4nagios/stat_net.php:68 | `%-20s` gives length max(20, \|s\|), keeps s as a prefix and pads with spaces. |
| StatNet.DrawEntry | pnp4nagios/stat_net.php:67-68 | The hand-written draw entry: the style's type, the source's variable, the style's colour, and the left-justified "device short-name" legend. |
| StatNet.SummaryFormat | pnp4nagios/stat_net.php:69-72 | The gprint format "HEAD\\: %4.3lg%s" followed by the graph's unit. |
| StatNet.SourceTokens | pnp4nagios/stat_net.php:64-73 | A source appends, in order, its DEF, its draw entry, the MAX, MIN, AVERAGE and LAST summaries of its own variable, and a line break. |
| StatNet.ReferenceLines | pnp4nagios/stat_net.php:76-80 | The four bandwidth hrules (10 MBit/s, 100 MBit/s, 1 GBit/s and 10 GBit/s, at 131072 bytes per MBit) and a line break: five tokens. |
| StatNet.ReferenceLinesIncreasing | pnp4nagios/stat_net.php:76-80 | The four reference lines are positive hrules in strictly increasing order, followed by a line break. |
| StatNet.TokensOf | pnp4nagios/stat_net.php:58-73 | Each source contributes seven tokens. |
| StatNet.Title | pnp4nagios/stat_net.php:51 | The opt of a graph: host, service and the pair's ds_name in the title, with the "Bytes" axis. |
| StatNet.GroupDef | pnp4nagios/stat_net.php:46-81 | The graph of group g after n sources: the first source's tokens, then, once the second source is processed, its tokens and the reference lines. The GroupDef lemmas below state its shape. |
| StatNet.UnitSetCovers | pnp4nagios/stat_net.php:55 | `$UNIT[g]` is set exactly when group g or group g-1 has begun. |
| StatNet.PairsShareGroup | pnp4nagios/stat_net.php:27-44 | Sources 2m and 2m+1 share group m+1, whose first key is 2m. |
| StatNet.SameGroupIffSamePair | pnp4nagios/stat_net.php:44 | Two sources share a group exactly when they belong to the same pair. |
| StatNet.GroupOfSource | pnp4nagios/stat_net.php:44-46 | A source's group has begun by the time the source is processed, and its first key is the source's even partner. |
| StatNet.OpenedStep | pnp4nagios/stat_net.php:46-56 | Processing source k begins a group exactly when k is even, and that group is the source's own. |
| StatNet.GroupDefKept | pnp4nagios/stat_net.php:64-81 | A source of another pair leaves a graph unchanged. |
| StatNet.GroupDefOpened | pnp4nagios/stat_net.php:54-73 | The first source of a pair starts its graph from "" with its own tokens. |
| StatNet.GroupDefClosed | pnp4nagios/stat_net.php:64-81 | The second source appends its own tokens and then the reference lines. |
| StatNet.GroupDefClosedShape | pnp4nagios/stat_net.php:75-81 | A complete pair's graph holds 19 tokens and ends in the reference lines. |
| StatNet.GroupDefOpenShape | pnp4nagios/stat_net.php:64-75 | An unfinished pair's graph holds only the first source's seven tokens, with no reference line. |
| StatNet.GraphsOfBuilt | pnp4nagios/stat_net.php:42-83 | After n sources the graphs are numbered 1 to ceil(n/2). A graph holds 19 tokens ending in the reference lines exactly when its pair is complete. |
| StatNet.TakeDevice | pnp4nagios/stat_net.php:47-50 | `$dev[$i]` and `$ds_name[$i]` are set together, only from a first name ending in "_in". |
| StatNet.BeginPair | pnp4nagios/stat_net.php:46-56 | The first source of a pair sets the title from the pair's ds_name (empty when unset), resets `$def[$i]` to "" and sets `$UNIT[$i]` and `$UNIT[$i+1]` to "B". |
| StatNet.AddSource | pnp4nagios/stat_net.php:58-81 | A source appends its tokens to `$def[$i]`, reading `$dev[$i]` (empty when unset) and `$UNIT[$i]`. The reference lines follow only at an odd key. |
| StatNet.StepFirst | pnp4nagios/stat_net.php:44-73 | A pass over an even key keeps the loop invariant. |
| StatNet.StepSecond | pnp4nagios/stat_net.php:58-81 | A pass over an odd key keeps the loop invariant and changes only `$def`. |
| StatNet.Step | pnp4nagios/stat_net.php:42-83 | One pass of the loop keeps the invariant. |
| StatNet.BuiltInitially | pnp4nagios/stat_net.php:41 | Before the loop no graph, device or title exists, and `$UNIT` is as the host supplied it. |
| StatNet.BuildGraphs | pnp4nagios/stat_net.php:41-83 | After the loop, `$dev`, `$ds_name`, `$opt`, `$UNIT` and `$def` are exactly as `Built` describes them. |

## Left out

- The `rrd::` helpers (`def`, `line1`, `gprint`, `hrule`, `comment`, `cut`) are PNP4Nagios library code. They are kept as uninterpreted tokens that record their arguments, and how `rrd::cut` truncates a label is not modelled.
- The host context is passed in as parameters:
  - `$this->DS` becomes a sequence indexed from 0;
  - `$hostname` and `$servicedesc` become strings;
  - the `$UNIT` array the host fills becomes `unit0`.
- The first palette (pnp4nagios/check_sensors_ikus.php:27-45) is not modelled, because the template overwrites it before any use.
- The `define('tempunit_defined')` include guard is not modelled.
- `$`, in every pattern, is read as the end of the string. PCRE also lets it match before a final line feed, so labels and names are taken to contain no line feed.
- PHP's loose `==` on units is modelled as plain equality. The constants compared against ("C", "V", "RPM", "%%") are not numeric strings, so the two agree.
- `sprintf('%-20s')` pads by bytes, while `StatNet.LeftJustify` pads by characters; the two agree on ASCII names.
- The numeric formats (`%4.1lf`, `%4.3lg`, …) are RRDtool's business and are kept as opaque strings.
- Sensors.BuildGraphs: requires that no category has more series than the palette has colours. Past the 21st colour the template reads an undefined offset, and the model does not say what that produces.
- StatNet.ShortName: requires a device name free of pattern metacharacters, as StatNet.BuildGraphs does below.
- StatNet.BuildGraphs: requires device names free of pattern metacharacters. The template pastes `$dev[$i]` into a pattern unescaped, and the model does not say what a name with metacharacters matches.
- Sensors.Step: the series' category is tracked as a ghost sequence `Categories(series)` so that the proof does not reason about the label tests again at each step. The cascade itself runs on the real tests.
