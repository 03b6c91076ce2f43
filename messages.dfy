/** The pure string logic of the adapter: failure messages, titles, data-set names and step names. */
module Messages {
  import opened Wrappers
  import opened Strings

  /** What the adapter reads from a runner failure; reflection on the exception is done by the caller.
      `wrappedClass` is `getClassname()` when the exception is a PHPUnit exception wrapper;
      `comparisonDiff` is the diff text when the exception is an expectation failure with a comparison failure. */
  datatype Failure = Failure(message: string, exceptionClass: string, wrappedClass: Option<string>, comparisonDiff: Option<string>)

  /** PHP_EOL, fixed to a line feed. */
  const Eol: string := "\n"
  const DiffHeader: string := "\n- Expected | + Actual\n"
  /** The text the runner puts between a test method's name and its data-provider label. */
  const DataSetMarker: string := "with data set"
  const Dot: char := '.'
  const DotReplacement: char := '•'

  // ---------------------------------------------------------------------------
  // Failure messages
  // ---------------------------------------------------------------------------

  /** `updateMessage`: issue keys and a line break go in front of the message only when there are
      issues and the option is on; the message itself always ends the result. */
  function UpdateMessage(issues: seq<string>, enabled: bool, message: string): (r: string)
    ensures |message| <= |r| && r[|r| - |message|..] == message
    ensures r == message <==> !(issues != [] && enabled)
  {
    if issues != [] && enabled then Join(issues, " ") + Eol + message else message
  }

  /** The prefix `updateMessage` adds is the issue keys separated by spaces and a line break. */
  lemma UpdateMessagePrefix(issues: seq<string>, message: string)
    requires issues != []
    ensures var r := UpdateMessage(issues, true, message);
            |r| == |Join(issues, " ")| + 1 + |message| &&
            r[..|Join(issues, " ")|] == Join(issues, " ") && r[|Join(issues, " ")|] == '\n'
  {
  }

  /** The label used for an error without message text. */
  function ClassLabel(f: Failure): (className: string)
  {
    match f.wrappedClass
    case Some(c) => c
    case None => f.exceptionClass
  }

  /** The message of `testError` before issue prefixing: the exception's message, or, when that is
      falsy in PHP's sense ("" or "0"), the wrapped class name or the exception's class. */
  function ErrorMessage(f: Failure): (r: string)
    ensures !IsFalsy(f.message) ==> r == f.message
    ensures IsFalsy(f.message) && f.wrappedClass.Some? ==> r == f.wrappedClass.value
    ensures IsFalsy(f.message) && f.wrappedClass.None? ==> r == f.exceptionClass
    ensures IsFalsy(r) ==> IsFalsy(f.message) && IsFalsy(ClassLabel(f))
  {
    if IsFalsy(f.message) then ClassLabel(f) else f.message
  }

  /** `getFullFailMessage`: the message, followed by the diff block when there is a truthy diff. */
  function FullFailMessage(f: Failure): (r: string)
    ensures |f.message| <= |r| && r[..|f.message|] == f.message
    ensures r == f.message <==> (f.comparisonDiff.None? || IsFalsy(f.comparisonDiff.value))
  {
    match f.comparisonDiff
    case Some(diff) => if IsFalsy(diff) then f.message else f.message + DiffHeader + diff
    case None => f.message
  }

  /** With a truthy diff, the header follows the message and the diff ends the result, unaltered. */
  lemma FullFailMessageCarriesDiff(f: Failure)
    requires f.comparisonDiff.Some? && !IsFalsy(f.comparisonDiff.value)
    ensures var r := FullFailMessage(f); var n := |f.message| + |DiffHeader|;
            n <= |r| && r[|f.message|..n] == DiffHeader && r[n..] == f.comparisonDiff.value
  {
  }

  // ---------------------------------------------------------------------------
  // Step names
  // ---------------------------------------------------------------------------

  /** The step name: action, a space and the arguments, with every dot replaced by a bullet;
      nothing else changes. */
  function StepName(action: string, args: string): (r: string)
    ensures |r| == |action| + 1 + |args|
    ensures Dot !in r
    ensures forall i :: 0 <= i < |r| ==> r[i] == (if (action + " " + args)[i] == Dot then DotReplacement else (action + " " + args)[i])
  {
    ReplaceCharRemovesAll(action + " " + args, Dot, DotReplacement);
    ReplaceChar(action + " " + args, Dot, DotReplacement)
  }

  /** Formatting a step name again leaves it as it is. */
  lemma StepNameIdempotent(action: string, args: string)
    ensures ReplaceChar(StepName(action, args), Dot, DotReplacement) == StepName(action, args)
  {
    ReplaceCharIdempotent(action + " " + args, Dot, DotReplacement);
  }

  /** The action and the arguments are substituted separately, around an untouched space. */
  lemma StepNamePieces(action: string, args: string)
    ensures StepName(action, args) == ReplaceChar(action, Dot, DotReplacement) + " " + ReplaceChar(args, Dot, DotReplacement)
  {
    ReplaceCharAppend(action + " ", args, Dot, DotReplacement);
    ReplaceCharAppend(action, " ", Dot, DotReplacement);
  }

  // ---------------------------------------------------------------------------
  // Data sets
  // ---------------------------------------------------------------------------

  /** `mb_substr(s, 0, len)`: a non-negative length keeps at most `len` characters, a negative one
      drops `-len` characters from the end. */
  function Head(s: string, len: int): (r: string)
    ensures |r| <= |s| && r == s[..|r|]
    ensures 0 <= len <= |s| ==> |r| == len
    ensures len < 0 && -len <= |s| ==> |r| == |s| + len
    ensures len > |s| ==> r == s
    ensures len < 0 && -len > |s| ==> r == []
  {
    if len >= 0 then (if len <= |s| then s[..len] else s)
    else if |s| + len >= 0 then s[..|s| + len] else []
  }

  /** A test name split into the name used for annotation lookup and the label shown after the title. */
  datatype DataSetSplit = DataSetSplit(base: string, suffix: Option<string>)

  /** The split of a plain test name at the first data-set marker: the lookup name stops one character
      before the marker, and the label is a bar followed by what comes after the marker. */
  function SplitDataSet(name: string): (r: DataSetSplit)
    ensures r.suffix.None? <==> forall q :: 0 <= q <= |name| ==> !OccursAt(name, DataSetMarker, q)
    ensures r.suffix.None? ==> r.base == name
    ensures r.suffix.Some? ==> |r.suffix.value| >= 1 && r.suffix.value[0] == '|'
  {
    match IndexOf(name, DataSetMarker)
    case None => DataSetSplit(name, None)
    case Some(p) =>
      assert |DataSetMarker| == 13;
      DataSetSplit(Head(name, p - 1), Some("|" + name[p + 13..]))
  }

  /** When the marker is not at the very start, the name is the lookup name, one separating character,
      the marker and the label without its bar; and the lookup name holds no marker. */
  lemma SplitDataSetReassembles(name: string)
    requires SplitDataSet(name).suffix.Some?
    requires !OccursAt(name, DataSetMarker, 0)
    ensures var r := SplitDataSet(name);
            |r.base| < |name| && r.suffix.value[0] == '|' &&
            name == r.base + [name[|r.base|]] + DataSetMarker + r.suffix.value[1..]
    ensures forall q :: 0 <= q <= |SplitDataSet(name).base| ==> !OccursAt(SplitDataSet(name).base, DataSetMarker, q)
    ensures forall q :: 0 <= q <= |SplitDataSet(name).base| ==> !OccursAt(name, DataSetMarker, q)
  {
    assert |DataSetMarker| == 13;
    var p := IndexOf(name, DataSetMarker).value;
    var r := SplitDataSet(name);
    assert p >= 1 && p + 13 <= |name|;
    assert r.base == name[..p - 1] && |r.base| == p - 1;
    assert r.suffix.value[1..] == name[p + 13..];
    assert name[p..p + 13] == DataSetMarker;
    CutAround(name, p - 1, 13);
    PrefixWithoutMarker(name, p - 1);
  }

  /** A string is its part before `k`, the character at `k`, the next `n` characters and the rest. */
  lemma CutAround(s: string, k: nat, n: nat)
    requires k + 1 + n <= |s|
    ensures s == s[..k] + [s[k]] + s[k + 1..k + 1 + n] + s[k + 1 + n..]
  {
    assert s[..k + 1] == s[..k] + [s[k]];
    assert s[..k + 1 + n] == s[..k + 1] + s[k + 1..k + 1 + n];
  }

  /** A prefix of a name with no marker starting in it holds no marker either. */
  lemma PrefixWithoutMarker(name: string, n: nat)
    requires n <= |name|
    requires forall q :: 0 <= q <= n ==> !OccursAt(name, DataSetMarker, q)
    ensures forall q :: 0 <= q <= n ==> !OccursAt(name[..n], DataSetMarker, q)
  {
    forall q | 0 <= q <= n ensures !OccursAt(name[..n], DataSetMarker, q) {
      assert !OccursAt(name, DataSetMarker, q);
      if q + |DataSetMarker| <= n {
        assert name[..n][q..q + |DataSetMarker|] == name[q..q + |DataSetMarker|];
      }
    }
  }

  /** A name with no `w`, or with no space (as every PHP method name), cannot hold the marker, so it
      is its own lookup name. */
  lemma SplitDataSetWithoutMarker(name: string)
    requires DataSetMarker[0] !in name || ' ' !in name
    ensures SplitDataSet(name) == DataSetSplit(name, None)
  {
    assert DataSetMarker == "with data set";
    forall q | 0 <= q <= |name| ensures !OccursAt(name, DataSetMarker, q) {
      if q + 13 <= |name| {
        assert name[q..q + 13][0] == name[q];
        assert name[q..q + 13][4] == name[q + 4];
      }
    }
  }

  /** In a runner-built name whose method name has no space, no marker starts before the real one:
      the marker's space (index 4) or its `d` (index 5) would have to fall on the method name, the
      separator, or the marker's own `with`. */
  lemma NoEarlyMarker(base: string, sep: char, rest: string, q: nat)
    requires ' ' !in base && q <= |base|
    ensures !OccursAt(base + [sep] + DataSetMarker + rest, DataSetMarker, q)
  {
    var name := base + [sep] + DataSetMarker + rest;
    var p := |base| + 1;
    assert DataSetMarker[0] == 'w' && DataSetMarker[4] == ' ' && DataSetMarker[5] == 'd';
    assert forall k :: 0 <= k < 4 ==> DataSetMarker[k] != ' ';
    if q + 13 <= |name| {
      var window := name[q..q + 13];
      if q + 4 < |base| {
        assert window[4] == base[q + 4];
      } else if q + 4 == |base| {
        assert window[5] == name[p] == DataSetMarker[0];
      } else {
        assert window[4] == DataSetMarker[q + 4 - p];
      }
    }
  }

  /** Splitting a runner-built name gives back its parts, when nothing before the marker can start
      another marker: the method name has no space (as every PHP method name), or neither it nor the
      separating character holds a `w`. */
  lemma SplitDataSetOf(base: string, sep: char, rest: string)
    requires ' ' !in base || (DataSetMarker[0] !in base && sep != DataSetMarker[0])
    ensures SplitDataSet(base + [sep] + DataSetMarker + rest) == DataSetSplit(base, Some("|" + rest))
  {
    assert DataSetMarker == "with data set";
    var name := base + [sep] + DataSetMarker + rest;
    var p := |base| + 1;
    assert name[p..p + 13] == DataSetMarker;
    forall q | 0 <= q < p ensures !OccursAt(name, DataSetMarker, q) {
      if ' ' !in base {
        NoEarlyMarker(base, sep, rest, q);
      } else if q + 13 <= |name| {
        assert name[q] != DataSetMarker[0] by {
          if q < |base| { assert name[q] == base[q]; } else { assert name[q] == sep; }
        }
        assert name[q..q + 13][0] == name[q];
      }
    }
    IndexOfUnique(name, DataSetMarker, p);
    assert name[..p - 1] == base;
    assert name[p + 13..] == rest;
  }

  /** A name that starts with the marker keeps all but its last character as the lookup name,
      as PHP's `mb_substr` does with the length -1. */
  lemma SplitDataSetAtStart(rest: string)
    ensures SplitDataSet(DataSetMarker + rest) ==
            DataSetSplit((DataSetMarker + rest)[..|DataSetMarker + rest| - 1], Some("|" + rest))
  {
    var name := DataSetMarker + rest;
    assert OccursAt(name, DataSetMarker, 0);
    IndexOfUnique(name, DataSetMarker, 0);
    assert name[13..] == rest;
  }

  /** The runner's name for the third data set of `testAdd`. */
  lemma SplitDataSetExample(name: string)
    requires name == "testAdd with data set #2"
    ensures SplitDataSet(name) == DataSetSplit("testAdd", Some("| #2"))
  {
    assert DataSetMarker == "with data set";
    assert name == "testAdd" + [' '] + DataSetMarker + " #2";
    assert forall k :: 0 <= k < 7 ==> "testAdd"[k] != ' ';
    SplitDataSetOf("testAdd", ' ', " #2");
    assert "|" + " #2" == "| #2";
  }

  /** The label a Cest example's `dataset` parameter gives: ` | "<dataset>"`. */
  function CestDataSetTitle(dataset: string): (r: string)
    ensures |r| == |dataset| + 5
    ensures r[..4] == " | \"" && r[|r| - 1] == '"'
    ensures r[4..|r| - 1] == dataset
  {
    " | \"" + dataset + "\""
  }

  /** Every data-set label is truthy in PHP, so it is always appended to a title. */
  lemma DataSetLabelsAreTruthy(name: string, dataset: string)
    ensures SplitDataSet(name).suffix.Some? ==> !IsFalsy(SplitDataSet(name).suffix.value)
    ensures !IsFalsy(CestDataSetTitle(dataset))
  {
  }

  // ---------------------------------------------------------------------------
  // Titles
  // ---------------------------------------------------------------------------

  /** What goes in front of a title: the issue keys and a space, or nothing. */
  function IssuePrefix(issues: seq<string>): (prefix: string)
  {
    if issues == [] then "" else Join(issues, " ") + " "
  }

  /** The title sent with a test case: the issue prefix, the annotated title and, when there is a
      data-set label, a space and that label. */
  function ComposeTitle(issues: seq<string>, title: string, dataSetTitle: Option<string>): (r: string)
    ensures issues == [] && dataSetTitle.None? ==> r == title
    ensures var n := |IssuePrefix(issues)|; n + |title| <= |r| && r[..n] == IssuePrefix(issues) && r[n..n + |title|] == title
    ensures dataSetTitle.None? ==> |r| == |IssuePrefix(issues)| + |title|
    ensures dataSetTitle.Some? ==> |r| == |IssuePrefix(issues)| + |title| + 1 + |dataSetTitle.value|
    ensures dataSetTitle.Some? ==> var t := " " + dataSetTitle.value; |t| <= |r| && r[|r| - |t|..] == t
  {
    IssuePrefix(issues) + title + (if dataSetTitle.Some? then " " + dataSetTitle.value else "")
  }

  /** Two issue keys in front of a title. */
  lemma ComposeTitleExample()
    ensures ComposeTitle(["JIRA-1", "JIRA-2"], "Login works", None) == "JIRA-1 JIRA-2 Login works"
    ensures UpdateMessage(["JIRA-1", "JIRA-2"], true, "boom") == "JIRA-1 JIRA-2\nboom"
  {
    assert Join(["JIRA-1", "JIRA-2"], " ") == "JIRA-1 JIRA-2" by {
      assert ["JIRA-1", "JIRA-2"][1..] == ["JIRA-2"];
    }
  }
}
