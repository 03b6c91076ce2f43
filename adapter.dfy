/** The Codeception extension that turns runner events into Allure report events. The Allure
    lifecycle is the append-only `log` of the events fired, in order. */
module Adapter {
  import opened Wrappers
  import opened Strings
  import opened Options
  import opened Annotations
  import opened Messages

  /** Suite identifiers; the lifecycle hands out a fresh one for every suite it starts. */
  type Uuid = nat

  /** The four status events a finished test can receive. */
  datatype StatusKind = Failed | Broken | Pending | Canceled

  /** The events fired into the Allure lifecycle. `classAnnotated` and `methodAnnotated` say whether
      the class or method annotations were applied to the event. */
  datatype ReportEvent =
    | SuiteStarted(uuid: Uuid, name: string, classAnnotated: bool)
    | SuiteFinished(closed: Option<Uuid>)
    | TestCaseStarted(parent: Uuid, name: string, methodAnnotated: bool, title: Option<string>)
    | TestCaseStatus(kind: StatusKind, message: string)
    | TestCaseFinished
    | StepStarted(name: string)
    | StepFinished

  /** A test as the runner reports it: a plain (PHPUnit-style) test or a Cest test. `className` is the
      class of the test object (plain) or of the Cest's test class; `example` holds the Cest's
      current example parameters. */
  datatype TestCase =
    | PlainTest(name: string, className: string)
    | CestTest(feature: string, name: string, className: string, example: map<string, string>)

  /** What reflection reports about the test's class: whether it is already loaded, and its methods
      with their annotations. */
  datatype ClassInfo = ClassInfo(loaded: bool, methods: map<string, seq<Annotation>>)

  /** A runner step: its humanized action, and its humanized arguments for a given length option. */
  datatype Step = Step(action: string, arguments: Value -> string)

  /** The Cest example parameter that names a data set. */
  const DataSetParameter: string := "dataset"

  // ---------------------------------------------------------------------------
  // What one test start derives from the test
  // ---------------------------------------------------------------------------

  /** The name given to the test case: the raw name of a plain test, data-set text included,
      or the feature of a Cest test. */
  function TestName(test: TestCase): (name: string)
  {
    match test
    case PlainTest(name, _) => name
    case CestTest(feature, _, _, _) => feature
  }

  /** The method name used to look up annotations. */
  function LookupName(test: TestCase): (name: string)
  {
    match test
    case PlainTest(name, _) => SplitDataSet(name).base
    case CestTest(_, name, _, _) => name
  }

  /** The data-set label, if any. */
  function DataSetTitle(test: TestCase): (title: Option<string>)
  {
    match test
    case PlainTest(name, _) => SplitDataSet(name).suffix
    case CestTest(_, _, _, example) =>
      if DataSetParameter in example then Some(CestDataSetTitle(example[DataSetParameter])) else None
  }

  /** The example parameters written back to a Cest test: only when a data set was taken out of them. */
  function StoredExample(test: TestCase): (r: Option<map<string, string>>)
    ensures r.Some? <==> test.CestTest? && DataSetParameter in test.example
    ensures r.Some? ==> DataSetParameter !in r.value && r.value.Keys == test.example.Keys - {DataSetParameter}
    ensures r.Some? ==> forall k :: k in r.value ==> r.value[k] == test.example[k]
  {
    if test.CestTest? && DataSetParameter in test.example then Some(test.example - {DataSetParameter}) else None
  }

  /** The suite events a test start fires: none for the suite already started; otherwise the stored
      suite is finished first, if there is one, and the new suite is started with a fresh id. */
  function SuiteEvents(stored: Option<string>, storedUuid: Option<Uuid>, name: string, newUuid: Uuid, loaded: bool): (events: seq<ReportEvent>)
  {
    if stored == Some(name) then []
    else (if storedUuid.Some? then [SuiteFinished(storedUuid)] else []) + [SuiteStarted(newUuid, name, loaded)]
  }

  /** Repeating the stored suite fires nothing; a new one fires at most one finish, always of the
      stored suite, and exactly one start, last. */
  lemma SuiteEventsShape(stored: Option<string>, storedUuid: Option<Uuid>, name: string, newUuid: Uuid, loaded: bool)
    ensures var es := SuiteEvents(stored, storedUuid, name, newUuid, loaded);
            (es == [] <==> stored == Some(name)) &&
            (es != [] ==> es[|es| - 1] == SuiteStarted(newUuid, name, loaded) &&
                          (forall i :: 0 <= i < |es| - 1 ==> es[i] == SuiteFinished(storedUuid)) &&
                          |es| == (if storedUuid.Some? then 2 else 1))
  {
  }

  /** `updateTitle` as a function of the method's annotations, the data-set label, the option and the
      current issues: the title to send, and the issues afterwards. */
  function TitleUpdate(annotations: seq<Annotation>, dataSetTitle: Option<string>, enabled: bool, current: seq<string>): (update: (Option<string>, seq<string>))
  {
    var t := FirstTitle(annotations);
    if t.None? || IsFalsy(t.value) then (None, current)
    else
      var issues := if enabled then IssueKeys(annotations) else current;
      (Some(ComposeTitle(issues, t.value, dataSetTitle)), issues)
  }

  /** No title is sent, and the issues are left alone, exactly when there is no `@Title` or the first
      one is falsy; a later `@Title` never counts. */
  lemma TitleUpdateWithoutTitle(annotations: seq<Annotation>, dataSetTitle: Option<string>, enabled: bool, current: seq<string>)
    ensures TitleUpdate(annotations, dataSetTitle, enabled, current).0.None? <==>
            (forall i :: 0 <= i < |annotations| ==> !annotations[i].Title?) ||
            (exists i :: 0 <= i < |annotations| && annotations[i].Title? && IsFalsy(annotations[i].value) &&
                         forall j :: 0 <= j < i ==> !annotations[j].Title?)
    ensures TitleUpdate(annotations, dataSetTitle, enabled, current).0.None? ==>
            TitleUpdate(annotations, dataSetTitle, enabled, current).1 == current
  {
    FirstTitleIsFirst(annotations);
    var t := FirstTitle(annotations);
    if t.Some? {
      var i :| 0 <= i < |annotations| && annotations[i] == Title(t.value) &&
               forall j :: 0 <= j < i ==> !annotations[j].Title?;
      if exists k :: 0 <= k < |annotations| && annotations[k].Title? && IsFalsy(annotations[k].value) &&
                     forall j :: 0 <= j < k ==> !annotations[j].Title? {
        var k :| 0 <= k < |annotations| && annotations[k].Title? && IsFalsy(annotations[k].value) &&
                 forall j :: 0 <= j < k ==> !annotations[j].Title?;
        assert !(k < i) && !(i < k);
      }
    }
  }

  /** Issues change only when the option is on and a title is sent; then they are all the keys of
      all `@Issues` annotations, in order, and they lead the title. */
  lemma TitleUpdateIssues(annotations: seq<Annotation>, dataSetTitle: Option<string>, enabled: bool, current: seq<string>)
    ensures var (title, issues) := TitleUpdate(annotations, dataSetTitle, enabled, current);
            (issues != current ==> enabled && title.Some?) &&
            (enabled && title.Some? ==> issues == IssueKeys(annotations)) &&
            (title.Some? && issues != [] ==> |Join(issues, " ")| < |title.value| && title.value[..|Join(issues, " ")| + 1] == Join(issues, " ") + " ")
  {
    var (title, issues) := TitleUpdate(annotations, dataSetTitle, enabled, current);
    if title.Some? && issues != [] {
      var t := FirstTitle(annotations).value;
      assert title.value == ComposeTitle(issues, t, dataSetTitle);
      assert IssuePrefix(issues) == Join(issues, " ") + " ";
    }
  }

  /** Two issue keys in front of a title. */
  lemma TitleUpdateExample()
    ensures TitleUpdate([Title("Login works"), Issues(["JIRA-1", "JIRA-2"])], None, true, []) ==
            (Some("JIRA-1 JIRA-2 Login works"), ["JIRA-1", "JIRA-2"])
  {
    var annotations := [Title("Login works"), Issues(["JIRA-1", "JIRA-2"])];
    assert IssueKeys(annotations) == ["JIRA-1", "JIRA-2"] by {
      assert annotations[1..] == [Issues(["JIRA-1", "JIRA-2"])];
      assert annotations[1..][1..] == [];
    }
    ComposeTitleExample();
  }

  /** The title and the issues a test start ends with: issues are cleared first, and only a method
      found by its lookup name is asked for a title. */
  function TestTitle(config: Config, test: TestCase, info: ClassInfo): (update: (Option<string>, seq<string>))
  {
    if LookupName(test) in info.methods
    then TitleUpdate(info.methods[LookupName(test)], DataSetTitle(test), IssuesInTestName(config), [])
    else (None, [])
  }

  // ---------------------------------------------------------------------------
  // The order in which the lifecycle receives events
  // ---------------------------------------------------------------------------

  /** The id and name of the last suite started in `log`, if any. */
  ghost function LastSuite(log: seq<ReportEvent>): (last: Option<(Uuid, string)>)
  {
    if log == [] then None
    else if log[|log| - 1].SuiteStarted? then Some((log[|log| - 1].uuid, log[|log| - 1].name))
    else LastSuite(log[..|log| - 1])
  }

  /** Some suite in `log` was started with id `u`. */
  ghost predicate IdUsed(log: seq<ReportEvent>, u: Uuid)
  {
    log != [] &&
    ((log[|log| - 1].SuiteStarted? && log[|log| - 1].uuid == u) || IdUsed(log[..|log| - 1], u))
  }

  /** Every suite in `log` was started with an id below `n`. */
  ghost predicate IdsBelow(log: seq<ReportEvent>, n: Uuid)
  {
    log == [] ||
    ((log[|log| - 1].SuiteStarted? ==> log[|log| - 1].uuid < n) && IdsBelow(log[..|log| - 1], n))
  }

  /** A suite start at position `i` uses its id. */
  lemma {:induction false} IdUsedAt(log: seq<ReportEvent>, i: nat)
    requires i < |log| && log[i].SuiteStarted?
    ensures IdUsed(log, log[i].uuid)
  {
    var n := |log| - 1;
    if i < n {
      assert log[..n][i] == log[i];
      IdUsedAt(log[..n], i);
    }
  }

  /** An id at or above the bound was never used. */
  lemma {:induction false} IdsBelowUnused(log: seq<ReportEvent>, n: Uuid, u: Uuid)
    requires IdsBelow(log, n) && n <= u
    ensures !IdUsed(log, u)
  {
    if log != [] {
      IdsBelowUnused(log[..|log| - 1], n, u);
    }
  }

  /** The bound on ids can always be raised. */
  lemma {:induction false} IdsBelowGrow(log: seq<ReportEvent>, n: Uuid, m: Uuid)
    requires IdsBelow(log, n) && n <= m
    ensures IdsBelow(log, m)
  {
    if log != [] {
      IdsBelowGrow(log[..|log| - 1], n, m);
    }
  }

  /** Every suite start in `log` uses an id below the bound. */
  lemma {:induction false} IdsBelowAt(log: seq<ReportEvent>, n: Uuid, i: nat)
    requires IdsBelow(log, n) && i < |log| && log[i].SuiteStarted?
    ensures log[i].uuid < n
  {
    var k := |log| - 1;
    if i < k {
      assert log[..k][i] == log[i];
      IdsBelowAt(log[..k], n, i);
    }
  }

  /** What may follow `init`: a suite start with an id never used before and, if a suite was started
      earlier, right after the finish of that suite; a test-case start under the last suite started. */
  ghost predicate Follows(init: seq<ReportEvent>, e: ReportEvent)
  {
    match e
    case SuiteStarted(u, _, _) =>
      !IdUsed(init, u) &&
      (LastSuite(init).Some? ==> init != [] && init[|init| - 1] == SuiteFinished(Some(LastSuite(init).value.0)))
    case TestCaseStarted(s, _, _, _) => LastSuite(init).Some? && LastSuite(init).value.0 == s
    case _ => true
  }

  /** Every event in `log` follows the events before it. */
  ghost predicate Protocol(log: seq<ReportEvent>)
  {
    log == [] || (Protocol(log[..|log| - 1]) && Follows(log[..|log| - 1], log[|log| - 1]))
  }

  /** Appending an event that follows the log keeps the protocol. */
  lemma AppendEvent(log: seq<ReportEvent>, e: ReportEvent)
    requires Protocol(log) && Follows(log, e)
    ensures Protocol(log + [e])
    ensures LastSuite(log + [e]) == if e.SuiteStarted? then Some((e.uuid, e.name)) else LastSuite(log)
  {
    assert (log + [e])[..|log|] == log;
  }

  /** The adapter's stored suite and id counter agree with the log: the log keeps the protocol, every
      id used is below `nextUuid`, and the stored name and id are those of the last suite started. */
  ghost predicate Consistent(log: seq<ReportEvent>, nextUuid: Uuid, suiteName: Option<string>, uuid: Option<Uuid>)
  {
    Protocol(log) &&
    IdsBelow(log, nextUuid) &&
    (LastSuite(log).None? ==> suiteName.None? && uuid.None?) &&
    (LastSuite(log).Some? ==> uuid == Some(LastSuite(log).value.0) && suiteName == Some(LastSuite(log).value.1))
  }

  /** Any event other than a suite start that follows the log keeps it consistent. */
  lemma ConsistentAppend(log: seq<ReportEvent>, nextUuid: Uuid, suiteName: Option<string>, uuid: Option<Uuid>, e: ReportEvent)
    requires Consistent(log, nextUuid, suiteName, uuid)
    requires !e.SuiteStarted?
    requires e.TestCaseStarted? ==> uuid == Some(e.parent)
    ensures Consistent(log + [e], nextUuid, suiteName, uuid)
  {
    AppendEvent(log, e);
    assert (log + [e])[..|log|] == log;
  }

  /** Starting a suite with the next id, right after finishing the stored suite (if there is one),
      keeps the log consistent with that suite stored. */
  lemma ConsistentOpen(log: seq<ReportEvent>, nextUuid: Uuid, suiteName: Option<string>, uuid: Option<Uuid>, name: string, loaded: bool)
    requires Consistent(log, nextUuid, suiteName, uuid)
    requires uuid.Some? ==> log != [] && log[|log| - 1] == SuiteFinished(uuid)
    ensures Consistent(log + [SuiteStarted(nextUuid, name, loaded)], nextUuid + 1, Some(name), Some(nextUuid))
  {
    IdsBelowUnused(log, nextUuid, nextUuid);
    AppendEvent(log, SuiteStarted(nextUuid, name, loaded));
    IdsBelowGrow(log, nextUuid, nextUuid + 1);
    assert (log + [SuiteStarted(nextUuid, name, loaded)])[..|log|] == log;
  }

  /** The protocol, stated over positions: suite ids are never reused, a suite start comes right after
      the finish of the previously started suite, and a test case starts under the last suite started. */
  lemma {:induction false} ProtocolMeans(log: seq<ReportEvent>)
    requires Protocol(log)
    ensures forall i, j :: 0 <= i < j < |log| && log[i].SuiteStarted? && log[j].SuiteStarted? ==> log[i].uuid != log[j].uuid
    ensures forall j :: 0 <= j < |log| && log[j].SuiteStarted? && LastSuite(log[..j]).Some? ==>
              0 < j && log[j - 1] == SuiteFinished(Some(LastSuite(log[..j]).value.0))
    ensures forall j :: 0 <= j < |log| && log[j].TestCaseStarted? ==>
              LastSuite(log[..j]).Some? && LastSuite(log[..j]).value.0 == log[j].parent
  {
    if log != [] {
      var n := |log| - 1;
      var init := log[..n];
      ProtocolMeans(init);
      assert Follows(init, log[n]);
      forall j | 0 <= j < n ensures log[..j] == init[..j] && log[j] == init[j] {
      }
      if log[n].SuiteStarted? {
        forall i | 0 <= i < n && log[i].SuiteStarted? ensures log[i].uuid != log[n].uuid {
          IdUsedAt(init, i);
        }
      }
      assert log[..n] == init;
    }
  }

  // ---------------------------------------------------------------------------
  // The extension
  // ---------------------------------------------------------------------------

  class AllureAdapter {
    const config: Config
    /** The runner suite's name followed by a dot. */
    var rootSuiteName: string
    /** The qualified name of the suite last started, `None` before the first. */
    var suiteName: Option<string>
    var testClassName: string
    /** The id of the suite last started, `None` before the first. */
    var uuid: Option<Uuid>
    /** The issue keys of the current test, for its messages. */
    var issues: seq<string>
    /** The Allure lifecycle: every event fired, oldest first. */
    var log: seq<ReportEvent>
    /** The next suite id the lifecycle hands out. */
    var nextUuid: Uuid

    /** The stored suite is the last one started, ids handed out so far are below `nextUuid`, the log
        keeps the protocol, and issues are only kept when the option is on. */
    ghost predicate Valid()
      reads this`log, this`nextUuid, this`suiteName, this`uuid, this`issues
    {
      Consistent(log, nextUuid, suiteName, uuid) &&
      (issues != [] ==> IssuesInTestName(config))
    }

    constructor (config: Config)
      ensures Valid() && this.config == config
      ensures rootSuiteName == "" && suiteName.None? && uuid.None? && issues == [] && log == [] && nextUuid == 0
    {
      this.config := config;
      rootSuiteName := "";
      suiteName := None;
      testClassName := "";
      uuid := None;
      issues := [];
      log := [];
      nextUuid := 0;
    }

    /** `suiteBefore`: remembers the runner suite's name with a trailing dot; fires nothing. */
    method SuiteBefore(suite: string)
      requires Valid()
      modifies this`rootSuiteName
      ensures Valid()
      ensures rootSuiteName == suite + "."
    {
      rootSuiteName := suite + ".";
    }

    /** `suiteStart`: keyed by the root name and the test class; opens a suite only when the key
        changes, closing the stored one first. */
    method SuiteStart(className: string, classLoaded: bool)
      requires Valid()
      modifies this`testClassName, this`suiteName, this`uuid, this`nextUuid, this`log
      ensures Valid()
      ensures testClassName == className && uuid.Some?
      ensures log == old(log) + SuiteEvents(old(suiteName), old(uuid), rootSuiteName + className, old(nextUuid), classLoaded)
      ensures old(suiteName) == Some(rootSuiteName + className) ==>
                suiteName == old(suiteName) && uuid == old(uuid) && nextUuid == old(nextUuid)
      ensures old(suiteName) != Some(rootSuiteName + className) ==>
                suiteName == Some(rootSuiteName + className) && uuid == Some(old(nextUuid)) && nextUuid == old(nextUuid) + 1
    {
      testClassName := className;
      var name := rootSuiteName + className;
      if Some(name) != suiteName {
        OpenSuite(name, classLoaded);
      } else {
        assert log == old(log) + [];
      }
    }

    /** The part of `suiteStart` that runs when the key changed: the stored suite, if there is one,
        is finished, and a suite is started with the next id and stored. */
    method OpenSuite(name: string, classLoaded: bool)
      requires Valid() && suiteName != Some(name)
      modifies this`suiteName, this`uuid, this`nextUuid, this`log
      ensures Valid()
      ensures log == old(log) + SuiteEvents(old(suiteName), old(uuid), name, old(nextUuid), classLoaded)
      ensures suiteName == Some(name) && uuid == Some(old(nextUuid)) && nextUuid == old(nextUuid) + 1
    {
      if uuid.Some? {
        SuiteAfter();
      }
      ConsistentOpen(log, nextUuid, suiteName, uuid, name, classLoaded);
      log := log + [SuiteStarted(nextUuid, name, classLoaded)];
      suiteName := Some(name);
      uuid := Some(nextUuid);
      nextUuid := nextUuid + 1;
    }

    /** `suiteAfter`: finishes the stored suite, whatever it is; nothing is reset. */
    method SuiteAfter()
      requires Valid()
      modifies this`log
      ensures Valid()
      ensures log == old(log) + [SuiteFinished(uuid)]
    {
      ConsistentAppend(log, nextUuid, suiteName, uuid, SuiteFinished(uuid));
      log := log + [SuiteFinished(uuid)];
    }

    /** `testStart`: clears the issues, switches the suite if the class changed, and starts the test
        case under the current suite, with the title its annotations give. Returns the example
        parameters written back to a Cest test, if any. */
    method TestStart(test: TestCase, info: ClassInfo) returns (storedExample: Option<map<string, string>>)
      requires Valid()
      modifies this`issues, this`testClassName, this`suiteName, this`uuid, this`nextUuid, this`log
      ensures Valid()
      ensures uuid.Some? && testClassName == test.className
      ensures log == old(log) + SuiteEvents(old(suiteName), old(uuid), rootSuiteName + test.className, old(nextUuid), info.loaded)
                     + [TestCaseStarted(uuid.value, TestName(test), LookupName(test) in info.methods, TestTitle(config, test, info).0)]
      ensures issues == TestTitle(config, test, info).1
      ensures old(suiteName) == Some(rootSuiteName + test.className) ==>
                suiteName == old(suiteName) && uuid == old(uuid) && nextUuid == old(nextUuid)
      ensures old(suiteName) != Some(rootSuiteName + test.className) ==>
                suiteName == Some(rootSuiteName + test.className) && uuid == Some(old(nextUuid)) && nextUuid == old(nextUuid) + 1
      ensures storedExample == StoredExample(test)
    {
      issues := [];
      SuiteStart(test.className, info.loaded);
      var testName, originalTestName, dataSetTitle;
      testName, originalTestName, dataSetTitle, storedExample := ReadTest(test);
      var title: Option<string> := None;
      var annotated := originalTestName in info.methods;
      if annotated {
        title := UpdateTitle(info.methods[originalTestName], dataSetTitle);
      }
      var event := TestCaseStarted(uuid.value, testName, annotated, title);
      ConsistentAppend(log, nextUuid, suiteName, uuid, event);
      log := log + [event];
    }

    /** The names `testStart` reads off the test: the test-case name, the method name to look
        annotations up by, the data-set label, and the example written back to a Cest test. */
    static method ReadTest(test: TestCase) returns (testName: string, originalTestName: string, dataSetTitle: Option<string>, storedExample: Option<map<string, string>>)
      ensures testName == TestName(test) && originalTestName == LookupName(test)
      ensures dataSetTitle == DataSetTitle(test) && storedExample == StoredExample(test)
    {
      dataSetTitle := None;
      storedExample := None;
      match test {
        case CestTest(feature, name, _, example) =>
          testName := feature;
          originalTestName := name;
          if DataSetParameter in example {
            dataSetTitle := Some(CestDataSetTitle(example[DataSetParameter]));
            storedExample := Some(example - {DataSetParameter});
          }
        case PlainTest(name, _) =>
          testName := name;
          var split := SplitDataSet(name);
          originalTestName := split.base;
          dataSetTitle := split.suffix;
      }
    }

    /** `updateTitle`: the title from the first `@Title`, with the issue keys in front when the
        option is on, and the data-set label after. */
    method UpdateTitle(annotations: seq<Annotation>, dataSetTitle: Option<string>) returns (title: Option<string>)
      requires Valid()
      modifies this`issues
      ensures Valid()
      ensures (title, issues) == TitleUpdate(annotations, dataSetTitle, IssuesInTestName(config), old(issues))
    {
      var found := FindTitle(annotations);
      if found.None? || IsFalsy(found.value) {
        return None;
      }
      if IssuesInTestName(config) {
        issues := GetIssues(annotations);
      }
      title := Some(ComposeTitle(issues, found.value, dataSetTitle));
    }

    /** The scan of `updateTitle` that stops at the first `@Title`. */
    static method FindTitle(annotations: seq<Annotation>) returns (title: Option<string>)
      ensures title == FirstTitle(annotations)
    {
      title := None;
      var i := 0;
      while i < |annotations|
        invariant 0 <= i <= |annotations|
        invariant FirstTitle(annotations) == FirstTitle(annotations[i..])
      {
        if annotations[i].Title? {
          title := Some(annotations[i].value);
          break;
        }
        assert annotations[i..][1..] == annotations[i + 1..];
        i := i + 1;
      }
    }

    /** `getIssues`: every key of every `@Issues` annotation, in declaration order. */
    static method GetIssues(annotations: seq<Annotation>) returns (keys: seq<string>)
      ensures keys == IssueKeys(annotations)
    {
      keys := [];
      var i := 0;
      while i < |annotations|
        invariant 0 <= i <= |annotations|
        invariant keys == IssueKeys(annotations[..i])
      {
        if annotations[i].Issues? {
          var issueKeys := annotations[i].keys;
          var j := 0;
          while j < |issueKeys|
            invariant 0 <= j <= |issueKeys|
            invariant keys == IssueKeys(annotations[..i]) + issueKeys[..j]
          {
            keys := keys + [issueKeys[j]];
            j := j + 1;
          }
        }
        IssueKeysAppend(annotations[..i], [annotations[i]]);
        assert annotations[..i + 1] == annotations[..i] + [annotations[i]];
        i := i + 1;
      }
      assert annotations[..i] == annotations;
    }

    /** `testError`: a broken status; an empty message falls back to the exception's class. */
    method TestError(f: Failure)
      requires Valid()
      modifies this`log
      ensures Valid()
      ensures log == old(log) + [TestCaseStatus(Broken, UpdateMessage(issues, IssuesInTestName(config), ErrorMessage(f)))]
    {
      var message := UpdateMessage(issues, IssuesInTestName(config), ErrorMessage(f));
      ConsistentAppend(log, nextUuid, suiteName, uuid, TestCaseStatus(Broken, message));
      log := log + [TestCaseStatus(Broken, message)];
    }

    /** `testFail`: a failed status; the message carries the comparison diff. */
    method TestFail(f: Failure)
      requires Valid()
      modifies this`log
      ensures Valid()
      ensures log == old(log) + [TestCaseStatus(Failed, UpdateMessage(issues, IssuesInTestName(config), FullFailMessage(f)))]
    {
      var message := UpdateMessage(issues, IssuesInTestName(config), FullFailMessage(f));
      ConsistentAppend(log, nextUuid, suiteName, uuid, TestCaseStatus(Failed, message));
      log := log + [TestCaseStatus(Failed, message)];
    }

    /** `testIncomplete`: a pending status with the exception's message. */
    method TestIncomplete(f: Failure)
      requires Valid()
      modifies this`log
      ensures Valid()
      ensures log == old(log) + [TestCaseStatus(Pending, UpdateMessage(issues, IssuesInTestName(config), f.message))]
    {
      var message := UpdateMessage(issues, IssuesInTestName(config), f.message);
      ConsistentAppend(log, nextUuid, suiteName, uuid, TestCaseStatus(Pending, message));
      log := log + [TestCaseStatus(Pending, message)];
    }

    /** `testSkipped`: a canceled status with the exception's message. */
    method TestSkipped(f: Failure)
      requires Valid()
      modifies this`log
      ensures Valid()
      ensures log == old(log) + [TestCaseStatus(Canceled, UpdateMessage(issues, IssuesInTestName(config), f.message))]
    {
      var message := UpdateMessage(issues, IssuesInTestName(config), f.message);
      ConsistentAppend(log, nextUuid, suiteName, uuid, TestCaseStatus(Canceled, message));
      log := log + [TestCaseStatus(Canceled, message)];
    }

    /** `testEnd`: finishes the test case, whatever its status. */
    method TestEnd()
      requires Valid()
      modifies this`log
      ensures Valid()
      ensures log == old(log) + [TestCaseFinished]
    {
      ConsistentAppend(log, nextUuid, suiteName, uuid, TestCaseFinished);
      log := log + [TestCaseFinished];
    }

    /** `stepBefore`: starts a step named by its action and its arguments, humanized with the
        `arguments_length` option, with the dots replaced. */
    method StepBefore(step: Step)
      requires Valid()
      modifies this`log
      ensures Valid()
      ensures log == old(log) + [StepStarted(StepName(step.action, step.arguments(ArgumentsLength(config))))]
    {
      var argumentsLength := TryGetOption(config, ArgumentsLengthKey, Int(DefaultArgumentsLength));
      var stepName := StepName(step.action, step.arguments(argumentsLength));
      ConsistentAppend(log, nextUuid, suiteName, uuid, StepStarted(stepName));
      log := log + [StepStarted(stepName)];
    }

    /** `stepAfter`: finishes the current step. */
    method StepAfter()
      requires Valid()
      modifies this`log
      ensures Valid()
      ensures log == old(log) + [StepFinished]
    {
      ConsistentAppend(log, nextUuid, suiteName, uuid, StepFinished);
      log := log + [StepFinished];
    }
  }
}
