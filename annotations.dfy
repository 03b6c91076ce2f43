/** The method annotations the adapter inspects, in declaration order. */
module Annotations {
  import opened Wrappers

  /** `@Title(value)`, `@Issues({keys})`, or any other annotation (only its name is kept). */
  datatype Annotation = Title(value: string) | Issues(keys: seq<string>) | Other(name: string)

  /** The value of the first `@Title`, if any: later titles are ignored. */
  function FirstTitle(annotations: seq<Annotation>): (title: Option<string>)
  {
    if annotations == [] then None
    else if annotations[0].Title? then Some(annotations[0].value)
    else FirstTitle(annotations[1..])
  }

  /** `FirstTitle` finds a title exactly when there is one, and it is the earliest. */
  lemma {:induction false} FirstTitleIsFirst(annotations: seq<Annotation>)
    ensures FirstTitle(annotations).None? <==> forall i :: 0 <= i < |annotations| ==> !annotations[i].Title?
    ensures FirstTitle(annotations).Some? ==>
              exists i :: 0 <= i < |annotations| && annotations[i] == Title(FirstTitle(annotations).value) &&
                forall j :: 0 <= j < i ==> !annotations[j].Title?
  {
    if annotations != [] && !annotations[0].Title? {
      var tail := annotations[1..];
      FirstTitleIsFirst(tail);
      if FirstTitle(tail).Some? {
        var i :| 0 <= i < |tail| && tail[i] == Title(FirstTitle(tail).value) &&
                 forall j :: 0 <= j < i ==> !tail[j].Title?;
        assert annotations[i + 1] == tail[i];
        forall j | 0 <= j < i + 1 ensures !annotations[j].Title? {
          if j > 0 { assert annotations[j] == tail[j - 1]; }
        }
      } else {
        forall i | 0 <= i < |annotations| ensures !annotations[i].Title? {
          if i > 0 { assert annotations[i] == tail[i - 1]; }
        }
      }
    }
  }

  /** The keys of all `@Issues` annotations, concatenated in declaration order. */
  function IssueKeys(annotations: seq<Annotation>): (keys: seq<string>)
  {
    if annotations == [] then []
    else (if annotations[0].Issues? then annotations[0].keys else []) + IssueKeys(annotations[1..])
  }

  /** Collecting keys over two lists of annotations is collecting over each in turn. */
  lemma {:induction false} IssueKeysAppend(a: seq<Annotation>, b: seq<Annotation>)
    ensures IssueKeys(a + b) == IssueKeys(a) + IssueKeys(b)
  {
    if a == [] {
      assert a + b == b;
    } else {
      assert (a + b)[1..] == a[1..] + b;
      IssueKeysAppend(a[1..], b);
    }
  }

  /** A key is collected exactly when some `@Issues` annotation lists it. */
  lemma {:induction false} IssueKeysComplete(annotations: seq<Annotation>, key: string)
    ensures key in IssueKeys(annotations) <==>
            exists i :: 0 <= i < |annotations| && annotations[i].Issues? && key in annotations[i].keys
  {
    if annotations != [] {
      IssueKeysComplete(annotations[1..], key);
      if exists i :: 0 <= i < |annotations| && annotations[i].Issues? && key in annotations[i].keys {
        var i :| 0 <= i < |annotations| && annotations[i].Issues? && key in annotations[i].keys;
        if i > 0 { assert annotations[1..][i - 1] == annotations[i]; }
      }
      if exists i :: 0 <= i < |annotations[1..]| && annotations[1..][i].Issues? && key in annotations[1..][i].keys {
        var i :| 0 <= i < |annotations[1..]| && annotations[1..][i].Issues? && key in annotations[1..][i].keys;
        assert annotations[i + 1] == annotations[1..][i];
      }
    }
  }

  /** Annotations without `@Issues` contribute no keys. */
  lemma {:induction false} IssueKeysNone(annotations: seq<Annotation>)
    requires forall i :: 0 <= i < |annotations| ==> !annotations[i].Issues?
    ensures IssueKeys(annotations) == []
  {
    if annotations != [] {
      IssueKeysNone(annotations[1..]);
    }
  }
}
