/** The PHP string built-ins the adapter relies on, over `seq<char>`. */
module Strings {
  import opened Wrappers

  /** PHP's truthiness for strings: exactly "" and "0" are false. */
  predicate IsFalsy(s: string) {
    s == "" || s == "0"
  }

  /** `pat` occurs in `s` starting at position `p`. */
  predicate OccursAt(s: string, pat: string, p: nat) {
    p + |pat| <= |s| && s[p..p + |pat|] == pat
  }

  /** `mb_strpos(s, pat)`: the first position at which `pat` occurs, or `None` (PHP's `false`). */
  function IndexOf(s: string, pat: string): (r: Option<nat>)
    ensures r.Some? ==> OccursAt(s, pat, r.value)
    ensures r.Some? ==> forall q :: 0 <= q < r.value ==> !OccursAt(s, pat, q)
    ensures r.None? ==> forall q :: 0 <= q <= |s| ==> !OccursAt(s, pat, q)
    decreases |s|
  {
    if |pat| > |s| then None
    else if s[..|pat|] == pat then Some(0)
    else
      assert !OccursAt(s, pat, 0) by { assert s[0..|pat|] == s[..|pat|]; }
      ShiftOccurs(s, pat);
      match IndexOf(s[1..], pat)
      case None => None
      case Some(p) => Some(p + 1)
  }

  /** An occurrence in the tail is an occurrence one position later in the whole. */
  lemma ShiftOccurs(s: string, pat: string)
    requires s != []
    ensures forall q :: 1 <= q <= |s| ==> (OccursAt(s, pat, q) <==> OccursAt(s[1..], pat, q - 1))
  {
    forall q | 1 <= q <= |s| ensures OccursAt(s, pat, q) <==> OccursAt(s[1..], pat, q - 1) {
      if q + |pat| <= |s| {
        assert s[1..][q - 1..q - 1 + |pat|] == s[q..q + |pat|];
      }
    }
  }

  /** The first occurrence is the only position at which `pat` occurs with no occurrence before it. */
  lemma IndexOfUnique(s: string, pat: string, p: nat)
    requires OccursAt(s, pat, p)
    requires forall q :: 0 <= q < p ==> !OccursAt(s, pat, q)
    ensures IndexOf(s, pat) == Some(p)
  {
  }

  /** `str_replace(from, to, s)` for single characters: every `from` becomes `to`, nothing else moves. */
  function ReplaceChar(s: string, from: char, to: char): (r: string)
    ensures |r| == |s|
    ensures forall i :: 0 <= i < |s| ==> r[i] == (if s[i] == from then to else s[i])
  {
    if s == [] then [] else [if s[0] == from then to else s[0]] + ReplaceChar(s[1..], from, to)
  }

  /** After replacement no `from` remains, when `from` and `to` differ. */
  lemma ReplaceCharRemovesAll(s: string, from: char, to: char)
    requires from != to
    ensures from !in ReplaceChar(s, from, to)
  {
  }

  /** Replacing again changes nothing. */
  lemma ReplaceCharIdempotent(s: string, from: char, to: char)
    requires from != to
    ensures ReplaceChar(ReplaceChar(s, from, to), from, to) == ReplaceChar(s, from, to)
  {
    var r := ReplaceChar(s, from, to);
    ReplaceCharRemovesAll(s, from, to);
    var rr := ReplaceChar(r, from, to);
    forall i | 0 <= i < |r| ensures rr[i] == r[i] {
      assert r[i] != from;
    }
  }

  /** Replacement works piecewise on a concatenation. */
  lemma {:induction false} ReplaceCharAppend(a: string, b: string, from: char, to: char)
    ensures ReplaceChar(a + b, from, to) == ReplaceChar(a, from, to) + ReplaceChar(b, from, to)
  {
    if a != [] {
      assert (a + b)[1..] == a[1..] + b;
      ReplaceCharAppend(a[1..], b, from, to);
    } else {
      assert a + b == b;
    }
  }

  /** `implode(sep, parts)`. */
  function Join(parts: seq<string>, sep: string): (joined: string)
  {
    if |parts| == 0 then ""
    else if |parts| == 1 then parts[0]
    else parts[0] + sep + Join(parts[1..], sep)
  }

  function SumLengths(parts: seq<string>): (total: nat)
  {
    if parts == [] then 0 else |parts[0]| + SumLengths(parts[1..])
  }

  /** The joined string is as long as all the parts together plus one separator per neighbouring pair. */
  lemma {:induction false} JoinLength(parts: seq<string>, sep: string)
    requires parts != []
    ensures |Join(parts, sep)| == SumLengths(parts) + (|parts| - 1) * |sep|
  {
    if |parts| == 1 {
      assert parts[1..] == [];
    } else {
      JoinLength(parts[1..], sep);
    }
  }

  /** Appending a part appends a separator and that part. */
  lemma {:induction false} JoinSnoc(parts: seq<string>, last: string, sep: string)
    requires parts != []
    ensures Join(parts + [last], sep) == Join(parts, sep) + sep + last
  {
    if |parts| == 1 {
      assert (parts + [last])[1..] == [last];
    } else {
      assert (parts + [last])[1..] == parts[1..] + [last];
      JoinSnoc(parts[1..], last, sep);
    }
  }

  /** The first part starts the joined string. */
  lemma {:induction false} JoinStartsWithFirst(parts: seq<string>, sep: string)
    requires parts != []
    ensures |parts[0]| <= |Join(parts, sep)| && Join(parts, sep)[..|parts[0]|] == parts[0]
  {
  }
}
