/** The extension's configuration: a map from option names to the values the runner's YAML supplies. */
module Options {
  import opened Wrappers

  /** A configuration value as PHP sees it. */
  datatype Value = Null | Bool(b: bool) | Int(i: int) | Str(s: string)

  const OutputDirectoryKey: string := "output_directory"
  const DeletePreviousResultsKey: string := "delete_previous_results"
  const ArgumentsLengthKey: string := "arguments_length"
  const IssuesInTestNameKey: string := "issues_in_test_name"
  const DefaultArgumentsLength: int := 200
  /** The adapter's fully qualified class name, as PHP's `__CLASS__` gives it. */
  const AdapterClass: string := "Yandex\\Allure\\Adapter\\AllureAdapter"

  type Config = map<string, Value>

  /** PHP's truthiness: null, false, 0, "" and "0" are false, everything else true. */
  predicate Truthy(v: Value) {
    match v
    case Null => false
    case Bool(b) => b
    case Int(i) => i != 0
    case Str(s) => s != "" && s != "0"
  }

  /** `tryGetOption`: the configured value when the key is present (even if it is null), the default otherwise. */
  function TryGetOption(config: Config, key: string, default: Value): (r: Value)
    ensures key in config ==> r == config[key]
    ensures key !in config ==> r == default
  {
    if key in config then config[key] else default
  }

  /** The text of the `ConfigurationException` that `getOption` throws for a missing key. */
  function MissingOptionMessage(key: string): (m: string)
    ensures |AdapterClass| + |key| + 2 <= |m| && m[..|AdapterClass|] == AdapterClass
    ensures m[|m| - |key| - 2..] == "`" + key + "`"
  {
    AdapterClass + ": Couldn't find required configuration option `" + key + "`"
  }

  /** `getOption`: the configured value, or the configuration error when the key is missing. */
  function GetOption(config: Config, key: string): (r: Result<Value, string>)
    ensures r.Ok? <==> key in config
    ensures r.Ok? ==> r.value == config[key]
    ensures r.Err? ==> r.error == MissingOptionMessage(key)
  {
    if key !in config then Err(MissingOptionMessage(key)) else Ok(config[key])
  }

  /** The two lookups agree wherever `getOption` succeeds; where it fails, `tryGetOption` falls back to its default. */
  lemma GetOptionAgreesWithTryGetOption(config: Config, key: string, default: Value)
    ensures GetOption(config, key).Ok? ==> GetOption(config, key).value == TryGetOption(config, key, default)
    ensures GetOption(config, key).Err? ==> TryGetOption(config, key, default) == default
  {
  }

  /** Whether issue keys are put in titles and failure messages (`issues_in_test_name`, default false). */
  predicate IssuesInTestName(config: Config) {
    Truthy(TryGetOption(config, IssuesInTestNameKey, Bool(false)))
  }

  /** The value passed to the runner's argument humanizer (`arguments_length`, default 200). */
  function ArgumentsLength(config: Config): (v: Value)
    ensures ArgumentsLengthKey !in config ==> v == Int(DefaultArgumentsLength)
    ensures ArgumentsLengthKey in config ==> v == config[ArgumentsLengthKey]
  {
    TryGetOption(config, ArgumentsLengthKey, Int(DefaultArgumentsLength))
  }

  /** With no configuration at all, issue keys stay out of titles and messages. */
  lemma IssuesOffByDefault()
    ensures !IssuesInTestName(map[])
  {
  }
}
