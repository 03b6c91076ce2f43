# allure-codeception: the AllureAdapter event translator

This project models the Codeception extension `AllureAdapter`. The extension listens to the test
runner's events and turns them into Allure lifecycle events:

- it opens a report suite per test class, and closes it when the class changes or the runner suite ends;
- it starts, marks and finishes test cases, and it starts and finishes steps;
- it gives a test case a title from its method's `@Title` annotation, with the `@Issues` keys put in
  front when the `issues_in_test_name` option is on, and with the data-provider label put after;
- it builds failure messages: it falls back to the exception class when the message is falsy in PHP,
  appends the comparison diff, and prefixes the issue keys;
- it names steps after their action and arguments, with every dot replaced by a bullet.

The model is written in Dafny, in these modules:

- `Wrappers` holds `Option` and `Result`.
- `Strings` holds the PHP string built-ins the adapter relies on: `mb_strpos`, `str_replace` on one
  character, `implode`, and PHP's string falsiness.
- `Options` holds the configuration map and PHP's truthiness of its values.
- `Annotations` holds the method annotations the adapter reads (`@Title`, `@Issues`, others).
- `Messages` holds the pure string logic: messages, titles, data-set names and step names.
- `Adapter` holds the class `AllureAdapter` itself. The Allure lifecycle is its field `log`: every
  event fired, oldest first. Every handler except `suiteBefore` appends to `log`, and every one keeps the invariant `Valid()`.
  `Valid()` says that the log follows the suite protocol, that suite ids are handed out fresh from a
  counter, and that the stored suite name and id are those of the last suite started.
- `Scenarios` holds whole runs, from construction to the last event, with the exact events that reach
  the lifecycle.

`suiteAfter` (`AllureAdapter.php` lines 219-222) fires a finish even when no suite was started,
with a null id, and it does not forget the suite it finished. The model follows the code. `EmptySuiteScenario` and
`RunnerSuiteChangeScenario` show both effects: the second shows the first suite finished twice when
a second runner suite starts.

## Model

| member | source | states |
|---|---|---|
| Strings.IndexOf | src/Yandex/Allure/Adapter/AllureAdapter.php:245 | `mb_strpos`: `Some(p)` is an occurrence with no occurrence before it; `None` means no occurrence anywhere |
| Strings.IndexOfUnique | src/Yandex/Allure/Adapter/AllureAdapter.php:245 | the first occurrence is the only position with an occurrence and none before it |
| Strings.ReplaceChar | src/Yandex/Allure/Adapter/AllureAdapter.php:332 | `str_replace` on one character: same length, every `from` becomes `to`, every other character stays |
| Strings.ReplaceCharRemovesAll | src/Yandex/Allure/Adapter/AllureAdapter.php:332 | after the replacement no `from` is left |
| Strings.ReplaceCharIdempotent | src/Yandex/Allure/Adapter/AllureAdapter.php:332 | replacing a second time changes nothing |
| Strings.ReplaceCharAppend | src/Yandex/Allure/Adapter/AllureAdapter.php:332 | the replacement works piece by piece on a concatenation |
| Strings.JoinLength | src/Yandex/Allure/Adapter/AllureAdapter.php:403 | `implode`: the length of the result is the sum of the parts' lengths plus one separator per neighbouring pair (`JoinSnoc` states the contents) |
| Strings.JoinSnoc | src/Yandex/Allure/Adapter/AllureAdapter.php:403 | appending a part appends a separator and that part |
| Strings.JoinStartsWithFirst | src/Yandex/Allure/Adapter/AllureAdapter.php:403 | the first part starts the joined string |
| Options.TryGetOption | src/Yandex/Allure/Adapter/AllureAdapter.php:107-113 | a present key gives its value, even a null one; a missing key gives the default |
| Options.MissingOptionMessage | src/Yandex/Allure/Adapter/AllureAdapter.php:128-131 | the configuration error starts with the adapter class name and ends with the missing key in backquotes |
| Options.GetOption | src/Yandex/Allure/Adapter/AllureAdapter.php:126-134 | succeeds exactly when the key is present, with its value; otherwise it fails with the missing-option message |
| Options.GetOptionAgreesWithTryGetOption | src/Yandex/Allure/Adapter/AllureAdapter.php:107-134 | both lookups give the same value when the key is present; when it is missing, `tryGetOption` falls back to its default |
| Options.ArgumentsLength | src/Yandex/Allure/Adapter/AllureAdapter.php:326-327 | the arguments length is the configured `arguments_length`, or 200 when it is not configured |
| Options.IssuesOffByDefault | src/Yandex/Allure/Adapter/AllureAdapter.php:397 | with no configuration, `issues_in_test_name` is off |
| Annotations.FirstTitleIsFirst | src/Yandex/Allure/Adapter/AllureAdapter.php:386-393 | the title scan finds nothing exactly when there is no `@Title`; otherwise it finds the earliest one |
| Annotations.IssueKeysAppend | src/Yandex/Allure/Adapter/AllureAdapter.php:365-373 | collecting keys over two annotation lists is collecting over each, in order |
| Annotations.IssueKeysComplete | src/Yandex/Allure/Adapter/AllureAdapter.php:365-373 | a key is collected exactly when some `@Issues` annotation lists it |
| Annotations.IssueKeysNone | src/Yandex/Allure/Adapter/AllureAdapter.php:365-373 | annotations without `@Issues` give no keys |
| Messages.UpdateMessage | src/Yandex/Allure/Adapter/AllureAdapter.php:415-421 | the message always ends the result; the result differs from the message exactly when there are issues and the option is on |
| Messages.UpdateMessagePrefix | src/Yandex/Allure/Adapter/AllureAdapter.php:417-418 | the prefix is the keys joined by spaces, then a line break |
| Messages.ErrorMessage | src/Yandex/Allure/Adapter/AllureAdapter.php:271-277 | a truthy message is kept; a falsy one ("" or "0") becomes the wrapped class, or else the exception class |
| Messages.FullFailMessage | src/Yandex/Allure/Adapter/AllureAdapter.php:423-437 | the message starts the result; the result is the bare message exactly when there is no diff or the diff is falsy |
| Messages.FullFailMessageCarriesDiff | src/Yandex/Allure/Adapter/AllureAdapter.php:428-433 | with a truthy diff, the header follows the message and the diff ends the result, unchanged |
| Messages.StepName | src/Yandex/Allure/Adapter/AllureAdapter.php:325-332 | the step name is action, space, arguments, with every dot replaced by a bullet; no dot remains |
| Messages.StepNameIdempotent | src/Yandex/Allure/Adapter/AllureAdapter.php:332 | a step name already has no dot left to replace |
| Messages.StepNamePieces | src/Yandex/Allure/Adapter/AllureAdapter.php:330-332 | the action and the arguments are replaced separately, around an untouched space |
| Messages.Head | src/Yandex/Allure/Adapter/AllureAdapter.php:249 | `mb_substr(s, 0, len)`: a prefix of `s`; a non-negative length keeps `len` characters, or the whole string when `len` exceeds it; a negative one drops `-len` from the end, or gives "" when `-len` exceeds the length |
| Messages.SplitDataSet | src/Yandex/Allure/Adapter/AllureAdapter.php:245-251 | there is a label exactly when the marker occurs; without one the lookup name is the whole name; a label starts with a bar |
| Messages.SplitDataSetReassembles | src/Yandex/Allure/Adapter/AllureAdapter.php:245-251 | when the marker is not at the start, the name is the lookup name, one character, the marker and the label without its bar; the lookup name holds no marker, and no marker starts before the one split at |
| Messages.SplitDataSetWithoutMarker | src/Yandex/Allure/Adapter/AllureAdapter.php:245-248 | a name with no space (as every PHP method name), or with no `w`, gets no label and is its own lookup name |
| Messages.SplitDataSetOf | src/Yandex/Allure/Adapter/AllureAdapter.php:245-251 | splitting a name built as method, separator, marker, rest gives back the method and a bar followed by the rest, for every method name without a space (as every PHP method name) and any separator; also for a method name and separator without `w` |
| Messages.NoEarlyMarker | src/Yandex/Allure/Adapter/AllureAdapter.php:245 | in such a name, with a space-free method name, no marker starts before the real one, so `mb_strpos` finds the real one |
| Messages.SplitDataSetAtStart | src/Yandex/Allure/Adapter/AllureAdapter.php:249 | a name that starts with the marker keeps all but its last character as its lookup name |
| Messages.SplitDataSetExample | src/Yandex/Allure/Adapter/AllureAdapter.php:245-251 | "testAdd with data set #2" splits into the lookup name "testAdd" and a bar followed by " #2" |
| Messages.CestDataSetTitle | src/Yandex/Allure/Adapter/AllureAdapter.php:238 | the Cest label is a space, a bar, a space and a quote, then the data set and a closing quote |
| Messages.DataSetLabelsAreTruthy | src/Yandex/Allure/Adapter/AllureAdapter.php:405-407 | every data-set label is truthy, so it is always appended |
| Messages.ComposeTitle | src/Yandex/Allure/Adapter/AllureAdapter.php:401-407 | the issue prefix and then the title start the result; a label follows directly after one space, so the length is fixed; with neither, the result is the title |
| Messages.ComposeTitleExample | src/Yandex/Allure/Adapter/AllureAdapter.php:401-418 | keys JIRA-1 and JIRA-2 give "JIRA-1 JIRA-2 Login works" and "JIRA-1 JIRA-2\nboom" |
| Adapter.StoredExample | src/Yandex/Allure/Adapter/AllureAdapter.php:236-240 | an example is written back exactly for a Cest test with a `dataset` parameter, with that parameter removed and every other one unchanged |
| Adapter.SuiteEventsShape | src/Yandex/Allure/Adapter/AllureAdapter.php:197-216 | the same suite fires nothing; a new one fires at most one finish, of the stored suite, then exactly one start |
| Adapter.TitleUpdateWithoutTitle | src/Yandex/Allure/Adapter/AllureAdapter.php:386-396 | no title is set, and the issues stay, exactly when there is no `@Title` or the first one is falsy; a later `@Title` never counts |
| Adapter.TitleUpdateIssues | src/Yandex/Allure/Adapter/AllureAdapter.php:397-404 | issues change only when the option is on and a title is set; then they are all the `@Issues` keys, and they lead the title |
| Adapter.TitleUpdateExample | src/Yandex/Allure/Adapter/AllureAdapter.php:383-409 | a title and two issue keys with the option on give "JIRA-1 JIRA-2 Login works" |
| Adapter.IdUsedAt | src/Yandex/Allure/Adapter/AllureAdapter.php:214-216 | every suite start in the log uses its id |
| Adapter.IdsBelowAt | src/Yandex/Allure/Adapter/AllureAdapter.php:214-216 | every suite id in a log kept by the adapter is below the id counter |
| Adapter.ProtocolMeans | src/Yandex/Allure/Adapter/AllureAdapter.php:189-263 | in a valid log, suite ids are never reused, a suite starts right after the previous suite finishes, and a test case starts under the last suite started |
| Adapter.AllureAdapter.constructor | src/Yandex/Allure/Adapter/AllureAdapter.php:81-96 | a new adapter has fired nothing and stores no suite |
| Adapter.AllureAdapter.SuiteBefore | src/Yandex/Allure/Adapter/AllureAdapter.php:183-187 | stores the runner suite's name with a trailing dot and fires nothing |
| Adapter.AllureAdapter.SuiteStart | src/Yandex/Allure/Adapter/AllureAdapter.php:189-217 | stores the test class; fires nothing for the stored suite; otherwise finishes the stored suite, if any, and starts the new suite with the next id |
| Adapter.AllureAdapter.OpenSuite | src/Yandex/Allure/Adapter/AllureAdapter.php:200-216 | finishes the stored suite when there is one, then starts and stores the named suite with the next id |
| Adapter.AllureAdapter.SuiteAfter | src/Yandex/Allure/Adapter/AllureAdapter.php:219-222 | fires a finish of the stored id, even when there is none, and resets nothing |
| Adapter.AllureAdapter.TestStart | src/Yandex/Allure/Adapter/AllureAdapter.php:224-263 | clears the issues, runs the suite switch, then starts the test case under the current suite with its name, its annotation flag and its title; returns the example written back |
| Adapter.AllureAdapter.ReadTest | src/Yandex/Allure/Adapter/AllureAdapter.php:229-251 | a Cest test gives its feature, its method and the quoted `dataset`; a plain test gives its raw name and the split of that name |
| Adapter.AllureAdapter.UpdateTitle | src/Yandex/Allure/Adapter/AllureAdapter.php:383-409 | the title and the issues afterwards are those of the title update |
| Adapter.AllureAdapter.FindTitle | src/Yandex/Allure/Adapter/AllureAdapter.php:386-393 | the loop returns the first `@Title`'s value |
| Adapter.AllureAdapter.GetIssues | src/Yandex/Allure/Adapter/AllureAdapter.php:362-375 | the nested loops return every `@Issues` key, in declaration order |
| Adapter.AllureAdapter.TestError | src/Yandex/Allure/Adapter/AllureAdapter.php:268-280 | fires a broken status whose message is the error message with the issue prefix |
| Adapter.AllureAdapter.TestFail | src/Yandex/Allure/Adapter/AllureAdapter.php:285-292 | fires a failed status whose message is the full fail message with the issue prefix |
| Adapter.AllureAdapter.TestIncomplete | src/Yandex/Allure/Adapter/AllureAdapter.php:297-304 | fires a pending status with the exception's message and the issue prefix |
| Adapter.AllureAdapter.TestSkipped | src/Yandex/Allure/Adapter/AllureAdapter.php:309-316 | fires a canceled status with the exception's message and the issue prefix |
| Adapter.AllureAdapter.TestEnd | src/Yandex/Allure/Adapter/AllureAdapter.php:318-321 | fires a test-case finish |
| Adapter.AllureAdapter.StepBefore | src/Yandex/Allure/Adapter/AllureAdapter.php:323-334 | fires a step start named from the action and the arguments humanized with `arguments_length` |
| Adapter.AllureAdapter.StepAfter | src/Yandex/Allure/Adapter/AllureAdapter.php:336-339 | fires a step finish |
| Scenarios.NoMethods | src/Yandex/Allure/Adapter/AllureAdapter.php:255 | a class with no matching method gives no title and no issues |
| Scenarios.DistinctSuiteNames | src/Yandex/Allure/Adapter/AllureAdapter.php:197 | two classes under one runner suite give two different suite names |
| Scenarios.SameSuiteScenario | src/Yandex/Allure/Adapter/AllureAdapter.php:197-199 | two tests of one class open its suite once, with id 0 |
| Scenarios.SuiteChangeScenario | src/Yandex/Allure/Adapter/AllureAdapter.php:189-222 | a change of class finishes suite 0 right before suite 1 starts; the runner's suite end finishes suite 1 |
| Scenarios.RunnerSuiteChangeScenario | src/Yandex/Allure/Adapter/AllureAdapter.php:183-222 | across two runner suites, suite 0 is finished twice before suite 1 starts |
| Scenarios.EmptySuiteScenario | src/Yandex/Allure/Adapter/AllureAdapter.php:219-222 | a runner suite without tests fires one finish, with no id |
| Scenarios.IssuesOn | src/Yandex/Allure/Adapter/AllureAdapter.php:397 | the configuration turns `issues_in_test_name` on |
| Scenarios.IssuesTitle | src/Yandex/Allure/Adapter/AllureAdapter.php:383-409 | with the option on, two issue keys lead the title and are kept as the test's issues |
| Scenarios.IssuesMessage | src/Yandex/Allure/Adapter/AllureAdapter.php:415-421 | the same keys lead the failure message, on a line of their own |
| Scenarios.IssuesScenario | src/Yandex/Allure/Adapter/AllureAdapter.php:224-321 | the whole run: suite start, titled test case, failed status with the keys in front, finish |
| Scenarios.DataSetTitleOf | src/Yandex/Allure/Adapter/AllureAdapter.php:242-258 | a data-provider name looks up its method's annotations, and the title ends with the bar and the label |
| Scenarios.DataSetScenario | src/Yandex/Allure/Adapter/AllureAdapter.php:242-262 | the test case keeps the raw name and gets the labelled title |
| Scenarios.CestTitle | src/Yandex/Allure/Adapter/AllureAdapter.php:231-258 | a Cest test is named by its feature, and the quoted data set follows the first title |
| Scenarios.CestScenario | src/Yandex/Allure/Adapter/AllureAdapter.php:231-262 | the whole Cest run: its events, and the example written back without `dataset` |

## Left out

- `_initialize`, `getOutputDirectory` and `prepareOutputDirectory` (lines 81-96 and 146-181) create and clean the results directory through the filesystem. They are not modelled. The constructor stands in for `_initialize`, with the configuration as a parameter.
- `getLifecycle` and `setLifecycle` (lines 344-355) hand out the global Allure lifecycle singleton. The `log` field replaces it, and the lifecycle's own handling of the events (suite and test-case storage, XML output) is not part of this model.
- Suite ids are UUID strings generated by the lifecycle. The model hands out ids from a counter. A generated UUID is never empty, so the `!empty($this->_uuid)` test becomes "an id is stored".
- Reflection is taken as input, not performed. `class_exists` is the `loaded` flag of `ClassInfo`. `method_exists` is membership in its `methods` map. PHP's case-insensitive method lookup is not modelled: names match exactly.
- Parsing annotations and applying them through the AnnotationManager (class and method metadata, and the ignored-annotations list) is reduced to two things: the flags `classAnnotated` and `methodAnnotated` on the events, and the `@Title` and `@Issues` values the adapter reads itself. The title that the AnnotationManager itself sets is not modelled. `title` on a test-case event is the one `updateTitle` sets, or `None`.
- The runner's step humanizers and the `DiffFactory` diff are inputs. The humanized arguments are a function of the `arguments_length` value, and the diff is an optional string on `Failure`.
- The exception object attached through `withException` is not modelled. Only the message, the class names and the diff are kept.
- A Cest example parameter `dataset` whose value is null counts as absent for `isset`. The model's example map holds only non-null strings, so it cannot express that case.
- `PHP_EOL` is fixed to a line feed. Multibyte encodings are not modelled: strings are sequences of characters, and `mb_strpos` and `mb_substr` count characters.
- The run of two tests of one class followed by one of another is covered in two parts, by `SameSuiteScenario` and `SuiteChangeScenario`. A single run of all three is not stated as one method.
