/** Command-line and system-property validation of the benchmark driver,
    the history flag derived from it, and the choice of engine
    configuration (Benchmark.java). */
module Params {
  import opened Outcomes

  /** The JVM system properties, as the driver reads and writes them. */
  type Properties = map<string, string>

  const HistoryKey: string := "history"
  const ConfigKey: string := "config"
  const ProfilingKey: string := "profiling"

  const DefaultHistory: string := "audit"
  const DefaultConfig: string := "default"

  const ConfigOptions: set<string> := {"default", "spring"}
  const HistoryOptions: set<string> := {"none", "activity", "audit", "full"}

  const MinInt32: int := -0x8000_0000
  const MaxInt32: int := 0x7FFF_FFFF

  // ---------------------------------------------------------------------
  // Integer.parseInt
  // ---------------------------------------------------------------------

  predicate IsDigit(c: char) {
    '0' <= c <= '9'
  }

  predicate AllDigits(s: string) {
    forall i :: 0 <= i < |s| ==> IsDigit(s[i])
  }

  function DigitValue(c: char): nat
    requires IsDigit(c)
  {
    c as int - '0' as int
  }

  function DigitChar(d: nat): (c: char)
    requires d < 10
    ensures IsDigit(c) && DigitValue(c) == d
  {
    ('0' as int + d) as char
  }

  /** The value of a string of decimal digits, most significant first. */
  function Magnitude(s: string): nat
    requires AllDigits(s)
    decreases |s|
  {
    if |s| == 0 then 0 else 10 * Magnitude(s[..|s| - 1]) + DigitValue(s[|s| - 1])
  }

  /** Java's Integer.parseInt on ASCII input: an optional sign followed by at
      least one digit, whose value fits a 32-bit int; None stands for the
      NumberFormatException. */
  function ParseInt(s: string): (r: Option<int>)
    ensures r.Some? ==> MinInt32 <= r.value <= MaxInt32
    ensures r.Some? ==> |s| > 0 && (r.value < 0 ==> s[0] == '-')
    ensures r.Some? && s[0] != '-' && s[0] != '+' ==> AllDigits(s)
  {
    if |s| == 0 then None
    else
      var digits := if s[0] == '-' || s[0] == '+' then s[1..] else s;
      if |digits| == 0 || !AllDigits(digits) then None
      else
        var v: int := if s[0] == '-' then 0 - Magnitude(digits) as int else Magnitude(digits);
        if MinInt32 <= v <= MaxInt32 then Some(v) else None
  }

  /** The decimal digits of a natural number, without leading zeros. */
  function Digits(m: nat): (s: string)
    ensures |s| > 0 && AllDigits(s) && Magnitude(s) == m
    ensures s[0] != '-' && s[0] != '+'
    decreases m
  {
    if m < 10 then [DigitChar(m)]
    else
      var prefix := Digits(m / 10);
      var s := prefix + [DigitChar(m % 10)];
      assert s[..|s| - 1] == prefix;
      s
  }

  /** Integer.toString: the decimal form of an int. */
  function Show(n: int): string {
    if n < 0 then "-" + Digits(-n) else Digits(n)
  }

  /** Every 32-bit int survives printing and parsing back. */
  lemma ParseShowRoundTrip(n: int)
    requires MinInt32 <= n <= MaxInt32
    ensures ParseInt(Show(n)) == Some(n)
  {
    if n < 0 {
      var s := Show(n);
      assert s[1..] == Digits(-n);
    }
  }

  /** Strings with a letter in them never parse. */
  lemma ParseRejectsNonDigit(s: string, i: nat)
    requires 0 < i < |s| && !IsDigit(s[i])
    ensures ParseInt(s).None?
  {
    if s[0] == '-' || s[0] == '+' {
      assert s[1..][i - 1] == s[i];
    }
  }

  // ---------------------------------------------------------------------
  // readAndValidateParams
  // ---------------------------------------------------------------------

  /** The driver's static fields that validation assigns. */
  datatype Settings = Settings(history: Option<string>, config: Option<string>, profiling: bool)

  /** Why validation returned false. */
  datatype ParamError =
    | WrongArgumentCount
    | InvalidConfig(config: string)
    | InvalidHistory(history: string)
    | NotAnInteger(position: nat, argument: string)

  /** The boolean verdict of validation together with its side effects on
      the system properties and the driver's fields. */
  datatype Validation = Validation(verdict: Outcome<ParamError>, props: Properties, settings: Settings)

  function ValueOr(props: Properties, key: string, default: string): string {
    if key in props then props[key] else default
  }

  /** The history level validation will see for these properties. */
  function HistoryOf(props: Properties): string {
    ValueOr(props, HistoryKey, DefaultHistory)
  }

  /** The configuration name validation will see for these properties. */
  function ConfigOf(props: Properties): string {
    ValueOr(props, ConfigKey, DefaultConfig)
  }

  /** Writes `default` under `key` unless the key is already present. */
  function WithDefault(props: Properties, key: string, default: string): (r: Properties)
    ensures r.Keys == props.Keys + {key}
    ensures r[key] == ValueOr(props, key, default)
    ensures forall k :: k in props ==> r[k] == props[k]
  {
    if key in props then props else props[key := default]
  }

  /** Benchmark.readAndValidateParams. */
  function ReadAndValidateParams(args: seq<string>, props: Properties, settings: Settings): (r: Validation)
    // a wrong argument count is reported before any property is read or written
    ensures |args| != 2 ==> r == Validation(Fail(WrongArgumentCount), props, settings)
    // past the count check both defaults are in place and nothing else changed
    ensures |args| == 2 ==>
      && r.props.Keys == props.Keys + {HistoryKey, ConfigKey}
      && r.props[HistoryKey] == HistoryOf(props)
      && r.props[ConfigKey] == ConfigOf(props)
      && (forall k :: k in props ==> r.props[k] == props[k])
      && r.settings.history == Some(HistoryOf(props))
      && r.settings.config == Some(ConfigOf(props))
    // the configuration is checked before the history level
    ensures |args| == 2 && ConfigOf(props) !in ConfigOptions ==>
      r.verdict == Fail(InvalidConfig(ConfigOf(props)))
    ensures |args| == 2 && ConfigOf(props) in ConfigOptions && HistoryOf(props) !in HistoryOptions ==>
      r.verdict == Fail(InvalidHistory(HistoryOf(props)))
    // validation passes exactly when every check passes
    ensures r.verdict.Pass? <==>
      && |args| == 2
      && ConfigOf(props) in ConfigOptions
      && HistoryOf(props) in HistoryOptions
      && ParseInt(args[0]).Some?
      && ParseInt(args[1]).Some?
    // the profiling field is only ever switched on, and only once both option checks passed
    ensures r.settings.profiling <==>
      || settings.profiling
      || (&& |args| == 2
          && ConfigOf(props) in ConfigOptions
          && HistoryOf(props) in HistoryOptions
          && ProfilingKey in props)
  {
    if |args| != 2 then
      Validation(Fail(WrongArgumentCount), props, settings)
    else
      var withHistory := WithDefault(props, HistoryKey, DefaultHistory);
      var history := withHistory[HistoryKey];
      var withConfig := WithDefault(withHistory, ConfigKey, DefaultConfig);
      var config := withConfig[ConfigKey];
      var recorded := settings.(history := Some(history), config := Some(config));
      if config !in ConfigOptions then
        Validation(Fail(InvalidConfig(config)), withConfig, recorded)
      else if history !in HistoryOptions then
        Validation(Fail(InvalidHistory(history)), withConfig, recorded)
      else
        var profiled := if ProfilingKey in withConfig then recorded.(profiling := true) else recorded;
        if ParseInt(args[0]).None? then
          Validation(Fail(NotAnInteger(0, args[0])), withConfig, profiled)
        else if ParseInt(args[1]).None? then
          Validation(Fail(NotAnInteger(1, args[1])), withConfig, profiled)
        else
          Validation(Pass, withConfig, profiled)
  }

  /** Validating a second time, against the properties the first run left
      behind, changes nothing and reaches the same verdict. */
  lemma ValidationIdempotent(args: seq<string>, props: Properties, settings: Settings)
    ensures var first := ReadAndValidateParams(args, props, settings);
            var second := ReadAndValidateParams(args, first.props, first.settings);
            second == first
  {
    var first := ReadAndValidateParams(args, props, settings);
    if |args| == 2 {
      assert HistoryOf(first.props) == HistoryOf(props);
      assert ConfigOf(first.props) == ConfigOf(props);
      assert first.props.Keys == props.Keys + {HistoryKey, ConfigKey};
      assert first.props + map[] == first.props;
    }
  }

  // ---------------------------------------------------------------------
  // historyEnabled and getProcessEngine
  // ---------------------------------------------------------------------

  /** `!historyValue.equals("none")` in Benchmark.main. */
  function HistoryEnabled(history: string): (r: bool)
    ensures history in HistoryOptions ==> (r <==> history in {"activity", "audit", "full"})
  {
    history != "none"
  }

  /** The engine getProcessEngine builds. */
  datatype EngineKind = DefaultEngine(profilingInterceptor: bool) | SpringEngine

  /** Why getProcessEngine threw. */
  datatype EngineError = ProfilingNeedsDefault | UnsupportedConfig(config: string)

  /** Benchmark.getProcessEngine, reduced to the branch it takes. */
  function GetProcessEngine(config: string, profiling: bool): (r: Result<EngineKind, EngineError>)
    ensures r.Success? <==> config == "default" || (config == "spring" && !profiling)
    ensures r.Success? ==> (r.value.DefaultEngine? <==> config == "default")
    ensures r.Success? && r.value.DefaultEngine? ==> r.value.profilingInterceptor == profiling
    ensures config == "spring" && profiling ==> r == Failure(ProfilingNeedsDefault)
    ensures config !in ConfigOptions ==> r == Failure(UnsupportedConfig(config))
  {
    if config == "default" then
      Success(DefaultEngine(profiling))
    else if config == "spring" then
      if profiling then Failure(ProfilingNeedsDefault) else Success(SpringEngine)
    else
      Failure(UnsupportedConfig(config))
  }

  /** After a passing validation the engine can only be refused for asking
      to profile the Spring configuration; the unsupported-config branch of
      getProcessEngine is unreachable. */
  lemma ValidatedConfigReachesEngine(args: seq<string>, props: Properties, settings: Settings)
    requires ReadAndValidateParams(args, props, settings).verdict.Pass?
    ensures var v := ReadAndValidateParams(args, props, settings);
            var engine := GetProcessEngine(v.settings.config.value, v.settings.profiling);
            && (engine.Failure? <==> ConfigOf(props) == "spring" && v.settings.profiling)
            && (engine.Failure? ==> engine.error == ProfilingNeedsDefault)
  {
  }
}
