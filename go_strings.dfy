/**
 * The parts of Go's `strings` package that the generator relies on:
 * `HasPrefix`, `HasSuffix` and `Replace` with a count of 1 or -1, and
 * `Index`, as the search inside `Replace`.
 * Strings are sequences of characters; no encoding is modelled.
 */
module GoStrings {
  import opened Wrappers

  /** `p` occurs in `s` starting at index `i`. */
  predicate OccursAt(s: string, p: string, i: nat) {
    i + |p| <= |s| && s[i..i + |p|] == p
  }

  /** `p` occurs somewhere in `s`. */
  predicate Contains(s: string, p: string) {
    exists i: nat :: i <= |s| && OccursAt(s, p, i)
  }

  /** `i` is the leftmost occurrence of `p` in `s`. */
  predicate FirstOccurrence(s: string, p: string, i: nat) {
    OccursAt(s, p, i) && forall j: nat :: j < i ==> !OccursAt(s, p, j)
  }

  /** strings.HasPrefix */
  predicate HasPrefix(s: string, prefix: string) {
    |prefix| <= |s| && s[..|prefix|] == prefix
  }

  /** strings.HasSuffix */
  predicate HasSuffix(s: string, suffix: string) {
    |suffix| <= |s| && s[|s| - |suffix|..] == suffix
  }

  /** The leftmost occurrence of `p` in `s` at or after `from`. */
  function IndexFrom(s: string, p: string, from: nat): (r: Option<nat>)
    requires from <= |s|
    decreases |s| - from
    ensures r.Some? ==> from <= r.value && r.value + |p| <= |s|
  {
    if from + |p| > |s| then None
    else if s[from..from + |p|] == p then Some(from)
    else IndexFrom(s, p, from + 1)
  }

  /** IndexFrom finds the leftmost occurrence at or after `from`, and None exactly when there is none. */
  lemma {:induction false} IndexFromSpec(s: string, p: string, from: nat)
    requires from <= |s|
    decreases |s| - from
    ensures var r := IndexFrom(s, p, from);
      (r.Some? ==> OccursAt(s, p, r.value) && forall j: nat :: from <= j < r.value ==> !OccursAt(s, p, j)) &&
      (r.None? ==> forall j: nat :: from <= j ==> !OccursAt(s, p, j))
  {
    if from + |p| <= |s| && s[from..from + |p|] != p {
      IndexFromSpec(s, p, from + 1);
    }
  }

  /** strings.Index, with None for Go's -1. */
  function Index(s: string, p: string): (r: Option<nat>)
    ensures r.Some? ==> r.value + |p| <= |s|
  {
    IndexFrom(s, p, 0)
  }

  /** Index finds the leftmost occurrence, and None exactly when `p` does not occur. */
  lemma IndexSpec(s: string, p: string)
    ensures Index(s, p).Some? <==> Contains(s, p)
    ensures Index(s, p).Some? ==> FirstOccurrence(s, p, Index(s, p).value)
  {
    IndexFromSpec(s, p, 0);
  }

  /** The index is determined by the occurrences alone. */
  lemma IndexIsFirst(s: string, p: string, i: nat)
    requires FirstOccurrence(s, p, i)
    ensures Index(s, p) == Some(i)
  {
    IndexSpec(s, p);
    FirstOccurrenceUnique(s, p);
  }

  /** strings.Replace(s, p, q, 1): the leftmost occurrence of `p` becomes `q`. */
  function ReplaceFirst(s: string, p: string, q: string): string
  {
    match Index(s, p)
    case None => s
    case Some(i) => s[..i] + q + s[i + |p|..]
  }

  /** ReplaceFirst leaves a string without `p` alone and otherwise replaces exactly the leftmost `p`. */
  lemma ReplaceFirstSpec(s: string, p: string, q: string)
    ensures !Contains(s, p) ==> ReplaceFirst(s, p, q) == s
    ensures forall i: nat :: FirstOccurrence(s, p, i) ==> ReplaceFirst(s, p, q) == s[..i] + q + s[i + |p|..]
  {
    IndexSpec(s, p);
    FirstOccurrenceUnique(s, p);
  }

  /**
   * strings.Replace(s, p, q, -1): every non-overlapping occurrence of `p`,
   * scanning from the left, becomes `q`. Go treats an empty `p` specially
   * (it inserts `q` between characters); no caller here passes one.
   */
  function ReplaceAll(s: string, p: string, q: string): (r: string)
    requires p != ""
    decreases |s|
    ensures |q| <= |p| ==> |r| <= |s|
  {
    match Index(s, p)
    case None => s
    case Some(i) => s[..i] + q + ReplaceAll(s[i + |p|..], p, q)
  }

  /** A string without `p` is left as it is. */
  lemma ReplaceAllAbsent(s: string, p: string, q: string)
    requires p != "" && !Contains(s, p)
    ensures ReplaceAll(s, p, q) == s
  {
    IndexSpec(s, p);
  }

  /** There is at most one leftmost occurrence. */
  lemma FirstOccurrenceUnique(s: string, p: string)
    ensures forall i: nat, j: nat :: FirstOccurrence(s, p, i) && FirstOccurrence(s, p, j) ==> i == j
  {
  }

  /** Shifting the string by one character shifts every occurrence by one. */
  lemma OccursAtTail(s: string, p: string, i: nat)
    requires s != []
    ensures OccursAt(s[1..], p, i) <==> OccursAt(s, p, i + 1)
  {
    if i + 1 + |p| <= |s| {
      assert s[1..][i..i + |p|] == s[i + 1..i + 1 + |p|];
    }
  }

  /**
   * A character-by-character reference for replacing every occurrence:
   * at each position either `p` starts there and is replaced, or one
   * character is copied.
   */
  function ReplaceScan(s: string, p: string, q: string): (r: string)
    requires p != ""
    decreases |s|
  {
    if |s| < |p| then s
    else if HasPrefix(s, p) then q + ReplaceScan(s[|p|..], p, q)
    else [s[0]] + ReplaceScan(s[1..], p, q)
  }

  /** Without an occurrence of `p`, the scan copies `s`. */
  lemma {:induction false} ReplaceScanAbsent(s: string, p: string, q: string)
    requires p != "" && !Contains(s, p)
    ensures ReplaceScan(s, p, q) == s
    decreases |s|
  {
    if |s| >= |p| {
      assert !OccursAt(s, p, 0);
      assert s[..|p|] == s[0..0 + |p|];
      forall i: nat ensures !OccursAt(s[1..], p, i) {
        OccursAtTail(s, p, i);
      }
      ReplaceScanAbsent(s[1..], p, q);
      assert s == [s[0]] + s[1..];
    }
  }

  /** When the leftmost occurrence is not at 0, dropping the first character moves it to one place earlier. */
  lemma IndexTail(s: string, p: string, i: nat)
    requires Index(s, p) == Some(i) && i > 0
    ensures Index(s[1..], p) == Some(i - 1)
  {
    var t := s[1..];
    IndexSpec(s, p);
    assert FirstOccurrence(s, p, i);
    OccursAtTail(s, p, i - 1);
    forall j: nat | j < i - 1 ensures !OccursAt(t, p, j) {
      OccursAtTail(s, p, j);
    }
    IndexIsFirst(t, p, i - 1);
  }

  /** One step of the index-driven replacement, with the remainder after the occurrence named `rest`. */
  lemma {:induction false} ReplaceAllUnfold(s: string, p: string, q: string, i: nat, rest: string)
    requires p != "" && Index(s, p) == Some(i)
    requires i + |p| <= |s| && rest == s[i + |p|..]
    ensures ReplaceAll(s, p, q) == s[..i] + q + ReplaceAll(rest, p, q)
  {
  }

  /** A leftmost occurrence past position 0 leaves the first character in place. */
  lemma {:induction false} ReplaceAllKeepsHead(s: string, p: string, q: string, i: nat)
    requires p != "" && Index(s, p) == Some(i) && i > 0
    ensures ReplaceAll(s, p, q) == [s[0]] + ReplaceAll(s[1..], p, q)
  {
    var t := s[1..];
    assert i + |p| <= |s|;
    var after := s[i + |p|..];
    ReplaceAllUnfold(s, p, q, i, after);
    IndexTail(s, p, i);
    assert t[i - 1 + |p|..] == after;
    ReplaceAllUnfold(t, p, q, i - 1, after);
    var rest := ReplaceAll(after, p, q);
    assert s[..i] == [s[0]] + t[..i - 1];
    Regroup(s[0], t[..i - 1], q, rest);
  }

  /** Concatenation regrouped around a leading character. */
  lemma Regroup(x: char, a: string, b: string, c: string)
    ensures ([x] + a) + b + c == [x] + (a + b + c)
  {
  }

  /** A leftmost occurrence at position 0 is replaced first. */
  lemma ReplaceAllAtHead(s: string, p: string, q: string)
    requires p != "" && Index(s, p) == Some(0)
    ensures HasPrefix(s, p)
    ensures ReplaceAll(s, p, q) == q + ReplaceAll(s[|p|..], p, q)
  {
    IndexSpec(s, p);
    assert OccursAt(s, p, 0);
    assert s[..|p|] == s[0..0 + |p|];
    ReplaceAllUnfold(s, p, q, 0, s[|p|..]);
    assert s[..0] + q == q;
  }

  /** Go's index-driven replacement agrees with the character scan. */
  lemma {:induction false} ReplaceAllIsScan(s: string, p: string, q: string)
    requires p != ""
    ensures ReplaceAll(s, p, q) == ReplaceScan(s, p, q)
    decreases |s|
  {
    var k := Index(s, p);
    IndexSpec(s, p);
    if k.None? {
      ReplaceScanAbsent(s, p, q);
    } else if k.value == 0 {
      ReplaceAllAtHead(s, p, q);
      ReplaceAllIsScan(s[|p|..], p, q);
    } else {
      assert OccursAt(s, p, k.value) && !OccursAt(s, p, 0);
      assert !HasPrefix(s, p) by { assert s[..|p|] == s[0..0 + |p|]; }
      ReplaceAllKeepsHead(s, p, q, k.value);
      ReplaceAllIsScan(s[1..], p, q);
    }
  }

  /** Replacing every occurrence after a leading `p` replaces that one first. */
  lemma ReplaceAllLeading(p: string, q: string, rest: string)
    requires p != ""
    ensures ReplaceAll(p + rest, p, q) == q + ReplaceAll(rest, p, q)
  {
    var s := p + rest;
    assert OccursAt(s, p, 0) by { assert s[0..0 + |p|] == p; }
    IndexIsFirst(s, p, 0);
    assert s[..0] == [] && s[0 + |p|..] == rest;
  }

  /**
   * Removal is a single pass: what is left can contain `p` again, so
   * stripping "AWS" from "AAWSWS" leaves "AWS".
   */
  lemma ReplaceAllSinglePass()
    ensures ReplaceAll("AAWSWS", "AWS", "") == "AWS"
  {
    var s := "AAWSWS";
    assert s[0..3] == "AAW";
    assert OccursAt(s, "AWS", 1);
    IndexIsFirst(s, "AWS", 1);
    assert s[1 + 3..] == "WS";
    assert !Contains("WS", "AWS");
  }
}
