/** Whole runs of the adapter, from construction to the last event, checked against the events the
    lifecycle receives. */
module Scenarios {
  import opened Wrappers
  import opened Strings
  import opened Options
  import opened Annotations
  import opened Messages
  import opened Adapter

  /** A test whose class reflection finds no methods gets no title and keeps no issues. */
  lemma NoMethods(config: Config, test: TestCase, loaded: bool)
    ensures LookupName(test) !in ClassInfo(loaded, map[]).methods
    ensures TestTitle(config, test, ClassInfo(loaded, map[])) == (None, [])
  {
  }

  /** Suite names built from one root and two different classes differ. */
  lemma DistinctSuiteNames(root: string, foo: string, bar: string)
    requires foo != bar
    ensures root + "." + foo != root + "." + bar
  {
    var n := |root + "."|;
    assert (root + "." + foo)[n..] == foo;
    assert (root + "." + bar)[n..] == bar;
  }

  /** Two tests of one class: its suite is opened once, by the first test, and stays open. */
  method SameSuiteScenario(root: string, foo: string, one: string, two: string)
    returns (events: seq<ReportEvent>)
    ensures events == [
      SuiteStarted(0, root + "." + foo, false),
      TestCaseStarted(0, one, false, None), TestCaseFinished,
      TestCaseStarted(0, two, false, None), TestCaseFinished]
  {
    var adapter := new AllureAdapter(map[]);
    var noInfo := ClassInfo(false, map[]);
    NoMethods(adapter.config, PlainTest(one, foo), false);
    NoMethods(adapter.config, PlainTest(two, foo), false);
    adapter.SuiteBefore(root);
    var stored := adapter.TestStart(PlainTest(one, foo), noInfo);
    adapter.TestEnd();
    stored := adapter.TestStart(PlainTest(two, foo), noInfo);
    adapter.TestEnd();
    events := adapter.log;
  }

  /** Tests of two classes: the suite of the first is closed right before the suite of the second
      opens with the next id; the runner's suite end closes the last one. */
  method SuiteChangeScenario(root: string, foo: string, bar: string, one: string, two: string)
    returns (events: seq<ReportEvent>)
    requires foo != bar
    ensures events == [
      SuiteStarted(0, root + "." + foo, false),
      TestCaseStarted(0, one, false, None), TestCaseFinished,
      SuiteFinished(Some(0)),
      SuiteStarted(1, root + "." + bar, false),
      TestCaseStarted(1, two, false, None), TestCaseFinished,
      SuiteFinished(Some(1))]
  {
    var adapter := new AllureAdapter(map[]);
    var noInfo := ClassInfo(false, map[]);
    NoMethods(adapter.config, PlainTest(one, foo), false);
    NoMethods(adapter.config, PlainTest(two, bar), false);
    DistinctSuiteNames(root, foo, bar);
    adapter.SuiteBefore(root);
    var stored := adapter.TestStart(PlainTest(one, foo), noInfo);
    adapter.TestEnd();
    stored := adapter.TestStart(PlainTest(two, bar), noInfo);
    adapter.TestEnd();
    adapter.SuiteAfter();
    events := adapter.log;
  }

  /** Two runner suites in a row: the end of the first finishes its suite, and since nothing is
      reset, the first test of the second finishes that same suite again before opening its own. */
  method RunnerSuiteChangeScenario(root1: string, root2: string, foo: string, bar: string, one: string, two: string)
    returns (events: seq<ReportEvent>)
    requires root1 + "." + foo != root2 + "." + bar
    ensures events == [
      SuiteStarted(0, root1 + "." + foo, false),
      TestCaseStarted(0, one, false, None),
      SuiteFinished(Some(0)),
      SuiteFinished(Some(0)),
      SuiteStarted(1, root2 + "." + bar, false),
      TestCaseStarted(1, two, false, None)]
  {
    var adapter := new AllureAdapter(map[]);
    var noInfo := ClassInfo(false, map[]);
    NoMethods(adapter.config, PlainTest(one, foo), false);
    NoMethods(adapter.config, PlainTest(two, bar), false);
    adapter.SuiteBefore(root1);
    var stored := adapter.TestStart(PlainTest(one, foo), noInfo);
    adapter.SuiteAfter();
    adapter.SuiteBefore(root2);
    stored := adapter.TestStart(PlainTest(two, bar), noInfo);
    events := adapter.log;
  }

  /** A runner suite without tests still fires a suite finish, with no id. */
  method EmptySuiteScenario(root: string) returns (events: seq<ReportEvent>)
    ensures events == [SuiteFinished(None)]
  {
    var adapter := new AllureAdapter(map[]);
    adapter.SuiteBefore(root);
    adapter.SuiteAfter();
    events := adapter.log;
  }

  /** The configuration that turns `issues_in_test_name` on. */
  function IssuesOn(): (config: Config)
    ensures IssuesInTestName(config)
  {
    map[IssuesInTestNameKey := Bool(true)]
  }

  /** A method annotated with a title and two issue keys, with the option on: the keys lead the
      title, and they are kept as the test's issues. */
  lemma IssuesTitle(methodName: string, className: string, title: string, key1: string, key2: string)
    requires ' ' !in methodName
    requires !IsFalsy(title)
    ensures var test := PlainTest(methodName, className);
            var info := ClassInfo(true, map[methodName := [Title(title), Issues([key1, key2])]]);
            TestName(test) == methodName && LookupName(test) in info.methods &&
            TestTitle(IssuesOn(), test, info) == (Some(key1 + " " + key2 + " " + title), [key1, key2])
  {
    var annotations := [Title(title), Issues([key1, key2])];
    SplitDataSetWithoutMarker(methodName);
    assert FirstTitle(annotations) == Some(title);
    assert IssueKeys(annotations) == [key1, key2] by {
      assert annotations[1..] == [Issues([key1, key2])];
      assert annotations[1..][1..] == [];
      assert IssueKeys(annotations[1..]) == [key1, key2] + [];
    }
    assert Join([key1, key2], " ") == key1 + " " + key2 by {
      assert [key1, key2][1..] == [key2];
    }
    assert ComposeTitle([key1, key2], title, None) == key1 + " " + key2 + " " + title by {
      assert IssuePrefix([key1, key2]) == key1 + " " + key2 + " ";
      assert key1 + " " + key2 + " " + title + "" == key1 + " " + key2 + " " + title;
    }
    assert IssuesInTestName(IssuesOn());
  }

  /** The same keys lead a failure message, on a line of their own. */
  lemma IssuesMessage(key1: string, key2: string, message: string)
    ensures UpdateMessage([key1, key2], true, FullFailMessage(Failure(message, "Exception", None, None))) ==
            key1 + " " + key2 + "\n" + message
  {
    assert Join([key1, key2], " ") == key1 + " " + key2 by {
      assert [key1, key2][1..] == [key2];
    }
  }

  /** With `issues_in_test_name` on, the issue keys lead the title and the failure message. */
  method IssuesScenario(root: string, className: string, methodName: string, title: string, key1: string, key2: string, message: string)
    returns (events: seq<ReportEvent>)
    requires ' ' !in methodName
    requires !IsFalsy(title)
    ensures events == [
      SuiteStarted(0, root + "." + className, true),
      TestCaseStarted(0, methodName, true, Some(key1 + " " + key2 + " " + title)),
      TestCaseStatus(Failed, key1 + " " + key2 + "\n" + message),
      TestCaseFinished]
  {
    var adapter := new AllureAdapter(IssuesOn());
    var info := ClassInfo(true, map[methodName := [Title(title), Issues([key1, key2])]]);
    IssuesTitle(methodName, className, title, key1, key2);
    IssuesMessage(key1, key2, message);
    adapter.SuiteBefore(root);
    var stored := adapter.TestStart(PlainTest(methodName, className), info);
    adapter.TestFail(Failure(message, "Exception", None, None));
    adapter.TestEnd();
    events := adapter.log;
  }

  /** A data-provider test: its name is the method name, a space, the marker and a label; the
      annotations are those of the method, and the title ends with the bar and the label. */
  lemma DataSetTitleOf(methodName: string, className: string, rest: string, title: string)
    requires ' ' !in methodName
    requires !IsFalsy(title)
    ensures var test := PlainTest(methodName + " " + DataSetMarker + rest, className);
            var info := ClassInfo(true, map[methodName := [Title(title)]]);
            LookupName(test) in info.methods &&
            TestTitle(map[], test, info) == (Some(title + " |" + rest), [])
  {
    var name := methodName + " " + DataSetMarker + rest;
    assert methodName + [' '] + DataSetMarker + rest == name;
    SplitDataSetOf(methodName, ' ', rest);
    assert SplitDataSet(name) == DataSetSplit(methodName, Some("|" + rest));
    assert FirstTitle([Title(title)]) == Some(title);
    assert ComposeTitle([], title, Some("|" + rest)) == title + " |" + rest by {
      assert IssuePrefix([]) == "";
      assert "" + title + (" " + ("|" + rest)) == title + " |" + rest;
    }
  }

  /** A data-provider test keeps its raw name, and its title carries the data-set label. */
  method DataSetScenario(root: string, className: string, methodName: string, rest: string, title: string)
    returns (events: seq<ReportEvent>)
    requires ' ' !in methodName
    requires !IsFalsy(title)
    ensures events == [
      SuiteStarted(0, root + "." + className, true),
      TestCaseStarted(0, methodName + " " + DataSetMarker + rest, true, Some(title + " |" + rest))]
  {
    var adapter := new AllureAdapter(map[]);
    var info := ClassInfo(true, map[methodName := [Title(title)]]);
    DataSetTitleOf(methodName, className, rest, title);
    adapter.SuiteBefore(root);
    var stored := adapter.TestStart(PlainTest(methodName + " " + DataSetMarker + rest, className), info);
    events := adapter.log;
  }

  /** A Cest example with a `dataset` parameter: the feature names the test case, and the quoted
      data set follows the first title, whatever annotations come before it. */
  lemma CestTitle(feature: string, methodName: string, className: string, example: map<string, string>, title: string)
    requires DataSetParameter in example
    requires !IsFalsy(title)
    ensures var test := CestTest(feature, methodName, className, example);
            var info := ClassInfo(true, map[methodName := [Other("group"), Title(title)]]);
            TestName(test) == feature && LookupName(test) in info.methods &&
            TestTitle(map[], test, info) == (Some(title + " " + CestDataSetTitle(example[DataSetParameter])), [])
  {
    var annotations := [Other("group"), Title(title)];
    assert FirstTitle(annotations) == Some(title) by {
      assert annotations[1..] == [Title(title)];
    }
    var quoted := CestDataSetTitle(example[DataSetParameter]);
    assert ComposeTitle([], title, Some(quoted)) == title + " " + quoted by {
      assert IssuePrefix([]) == "";
      assert "" + title + (" " + quoted) == title + " " + quoted;
    }
  }

  /** The Cest example run: the parameter is taken out of the stored example. */
  method CestScenario(root: string, className: string, feature: string, methodName: string, example: map<string, string>, title: string)
    returns (events: seq<ReportEvent>, stored: Option<map<string, string>>)
    requires DataSetParameter in example
    requires !IsFalsy(title)
    ensures events == [
      SuiteStarted(0, root + "." + className, true),
      TestCaseStarted(0, feature, true, Some(title + " " + CestDataSetTitle(example[DataSetParameter])))]
    ensures stored == Some(example - {DataSetParameter})
  {
    var adapter := new AllureAdapter(map[]);
    var info := ClassInfo(true, map[methodName := [Other("group"), Title(title)]]);
    CestTitle(feature, methodName, className, example, title);
    adapter.SuiteBefore(root);
    stored := adapter.TestStart(CestTest(feature, methodName, className, example), info);
    events := adapter.log;
  }
}
