/**
 * The few methods of Python's `str` that the core uses, on `seq<char>`:
 * `sep.join`, `split` with a one-character separator, `removesuffix` and
 * `replace` of one character by another.
 */
module Text {
  import opened Wrappers

  predicate EndsWith(s: string, suffix: string) {
    |suffix| <= |s| && s[|s| - |suffix|..] == suffix
  }

  /** `r` is what follows the last character of `s` that is in `seps` (all of `s` if none is). */
  predicate AfterLast(s: string, seps: set<char>, r: string) {
    && EndsWith(s, r)
    && (forall i :: 0 <= i < |r| ==> r[i] !in seps)
    && (|r| == |s| || s[|s| - |r| - 1] in seps)
  }

  /**
   * `r` is the longest suffix of `s` holding at most one `c`: what follows the
   * second-to-last `c` of `s`, or all of `s` when it holds fewer than two.
   */
  predicate AfterSecondLast(s: string, c: char, r: string) {
    && EndsWith(s, r)
    && multiset(r)[c] <= 1
    && (|r| == |s| || (s[|s| - |r| - 1] == c && multiset(r)[c] == 1))
  }

  /** Python's `sep.join(parts)`. */
  function Join(parts: seq<string>, sep: string): string {
    if |parts| == 0 then ""
    else if |parts| == 1 then parts[0]
    else Join(parts[..|parts| - 1], sep) + sep + parts[|parts| - 1]
  }

  /** The index of the last `c` in `s`, as `s.rfind(c)` gives it. */
  function LastIndex(s: string, c: char): (r: Option<nat>)
    ensures r.None? <==> c !in s
    ensures r.Some? ==> r.value < |s| && s[r.value] == c && c !in s[r.value + 1..]
  {
    if |s| == 0 then None
    else if s[|s| - 1] == c then Some(|s| - 1)
    else
      var r := LastIndex(s[..|s| - 1], c);
      assert s == s[..|s| - 1] + [s[|s| - 1]];
      assert r.Some? ==> s[r.value + 1..] == s[..|s| - 1][r.value + 1..] + [s[|s| - 1]];
      r
  }

  /** Python's `s.split(c)`: the pieces of `s` between its occurrences of `c`, in order. */
  function Split(s: string, c: char): (parts: seq<string>)
    ensures |parts| == multiset(s)[c] + 1
    ensures forall i :: 0 <= i < |parts| ==> c !in parts[i]
    decreases |s|
  {
    match LastIndex(s, c)
    case None => [s]
    case Some(j) =>
      assert s == s[..j] + [c] + s[j + 1..];
      Split(s[..j], c) + [s[j + 1..]]
  }

  /** Joining the pieces of a split with the separator gives back the string. */
  lemma {:induction false} JoinSplit(s: string, c: char)
    ensures Join(Split(s, c), [c]) == s
    decreases |s|
  {
    match LastIndex(s, c)
    case None =>
    case Some(j) =>
      var init := Split(s[..j], c);
      JoinSplit(s[..j], c);
      JoinSnoc(init, s[j + 1..], [c]);
      assert s == s[..j] + [c] + s[j + 1..];
  }

  /** Python's `s.removesuffix(suffix)`. */
  function RemoveSuffix(s: string, suffix: string): (r: string)
    ensures r <= s
    ensures suffix != [] && EndsWith(s, suffix) <==> r + suffix == s && suffix != []
    ensures r != s ==> r + suffix == s
  {
    if suffix != [] && EndsWith(s, suffix) then s[..|s| - |suffix|] else s
  }

  /** Python's `s.replace(a, b)` for single characters. */
  function ReplaceChar(s: string, a: char, b: char): (r: string)
    ensures |r| == |s|
    ensures forall i :: 0 <= i < |s| ==> r[i] == if s[i] == a then b else s[i]
  {
    seq(|s|, i requires 0 <= i < |s| => if s[i] == a then b else s[i])
  }

  /**
   * The last `n` elements of `parts`, or all of them when there are fewer:
   * Python's `parts[-n:]` for a positive `n` (`parts[-0:]` is the whole list).
   */
  function LastN(parts: seq<string>, n: nat): (r: seq<string>)
    requires n > 0
    ensures |r| == if n <= |parts| then n else |parts|
    ensures r == parts[|parts| - |r|..]
  {
    if n <= |parts| then parts[|parts| - n..] else parts
  }

  /** A string has only one part after its last separator. */
  lemma AfterLastUnique(s: string, seps: set<char>, a: string, b: string)
    requires AfterLast(s, seps, a) && AfterLast(s, seps, b)
    ensures a == b
  {
    NoSeparatorInSuffix(s, seps, a);
    NoSeparatorInSuffix(s, seps, b);
  }

  /** The positions a separator-free suffix covers hold no separator. */
  lemma NoSeparatorInSuffix(s: string, seps: set<char>, r: string)
    requires EndsWith(s, r) && forall i :: 0 <= i < |r| ==> r[i] !in seps
    ensures forall i :: |s| - |r| <= i < |s| ==> s[i] !in seps
  {
    forall i | |s| - |r| <= i < |s|
      ensures s[i] !in seps
    {
      assert s[i] == r[i - (|s| - |r|)];
    }
  }

  /** A string has only one suffix after its second-to-last separator. */
  lemma AfterSecondLastUnique(s: string, c: char, a: string, b: string)
    requires AfterSecondLast(s, c, a) && AfterSecondLast(s, c, b)
    ensures a == b
  {
    if |a| < |s| {
      SeparatorCounts(s, c, a, b);
    }
    if |b| < |s| {
      SeparatorCounts(s, c, b, a);
    }
  }

  /** A suffix that reaches over the separator before a shorter suffix holds one more separator. */
  lemma SeparatorCounts(s: string, c: char, a: string, b: string)
    requires EndsWith(s, a) && EndsWith(s, b) && |a| < |s|
    requires s[|s| - |a| - 1] == c
    ensures |a| < |b| ==> multiset(b)[c] >= multiset(a)[c] + 1
  {
    if |a| < |b| {
      var p := |s| - |a| - 1;
      var q := |s| - |b|;
      assert b == s[q..p] + [s[p]] + a;
    }
  }

  /** `LastIndex` finds the last occurrence and no other. */
  lemma LastIndexAt(s: string, c: char, j: nat)
    requires j < |s| && s[j] == c && c !in s[j + 1..]
    ensures LastIndex(s, c) == Some(j)
  {
    var r := LastIndex(s, c);
    assert forall i :: j < i < |s| ==> s[i] == s[j + 1..][i - j - 1];
    assert forall i :: r.value < i < |s| ==> s[i] == s[r.value + 1..][i - r.value - 1];
  }

  /** The last piece of a split is what follows the last separator. */
  lemma LastPiece(s: string, c: char)
    ensures var parts := Split(s, c); AfterLast(s, {c}, parts[|parts| - 1])
  {
    var parts := Split(s, c);
    if c !in s {
      assert parts == [s];
      assert s[0..] == s;
      assert forall i :: 0 <= i < |s| ==> s[i] != c;
    } else {
      var j := LastIndex(s, c).value;
      var tail := s[j + 1..];
      assert parts == Split(s[..j], c) + [tail];
      assert |s| - |tail| - 1 == j;
      assert forall i :: 0 <= i < |tail| ==> tail[i] != c;
    }
  }

  /** The last two pieces of a split, rejoined, are what follows the second-to-last separator. */
  lemma LastTwoPieces(s: string, c: char)
    ensures AfterSecondLast(s, c, Join(LastN(Split(s, c), 2), [c]))
  {
    if c !in s {
      NoSeparatorPieces(s, c);
    } else {
      SomeSeparatorPieces(s, c, LastIndex(s, c).value);
    }
  }

  lemma SomeSeparatorPieces(s: string, c: char, j: nat)
    requires LastIndex(s, c) == Some(j)
    ensures AfterSecondLast(s, c, Join(LastN(Split(s, c), 2), [c]))
  {
    var head, tail := s[..j], s[j + 1..];
    var init := Split(head, c);
    var last := init[|init| - 1];
    Around(s, j);
    LastTwoAt(s, c, j);
    LastPiece(head, c);
    Rejoined(head, c, last, tail);
    assert Join(LastN(Split(s, c), 2), [c]) == Join([last, tail], [c]);
  }

  lemma NoSeparatorPieces(s: string, c: char)
    requires c !in s
    ensures Join(LastN(Split(s, c), 2), [c]) == s
    ensures AfterSecondLast(s, c, s)
  {
    assert Split(s, c) == [s];
    assert s[0..] == s;
    assert multiset(s)[c] == 0;
  }

  lemma LastTwoAt(s: string, c: char, j: nat)
    requires LastIndex(s, c) == Some(j)
    ensures var init := Split(s[..j], c); LastN(Split(s, c), 2) == [init[|init| - 1], s[j + 1..]]
  {
    var init := Split(s[..j], c);
    var tail := s[j + 1..];
    var parts := Split(s, c);
    assert parts == init + [tail];
    var r := LastN(parts, 2);
    assert r[0] == parts[|parts| - 2] == init[|init| - 1];
    assert r[1] == parts[|parts| - 1] == tail;
  }

  /** `last` after the last `c` of `head`, then `c`, then a `tail` without `c`. */
  lemma Rejoined(head: string, c: char, last: string, tail: string)
    requires AfterLast(head, {c}, last) && c !in tail
    ensures AfterSecondLast(head + [c] + tail, c, Join([last, tail], [c]))
  {
    var s := head + [c] + tail;
    var r := last + [c] + tail;
    assert Join([last, tail], [c]) == r;
    assert multiset(last)[c] == 0 by {
      assert forall i :: 0 <= i < |last| ==> last[i] != c;
    }
    assert multiset(r)[c] == 1;
    assert s[|s| - |r|..] == head[|head| - |last|..] + [c] + tail;
    if |last| < |head| {
      assert s[|s| - |r| - 1] == head[|head| - |last| - 1];
    }
  }

  /** Splitting undoes joining on pieces that do not hold the separator. */
  lemma {:induction false} SplitJoin(parts: seq<string>, c: char)
    requires |parts| >= 1
    requires forall i :: 0 <= i < |parts| ==> c !in parts[i]
    ensures Split(Join(parts, [c]), c) == parts
  {
    if |parts| > 1 {
      var init := parts[..|parts| - 1];
      var last := parts[|parts| - 1];
      assert parts == init + [last];
      var head := Join(init, [c]);
      assert c !in last;
      calc {
        Split(Join(parts, [c]), c);
      == { JoinSnoc(init, last, [c]); }
        Split(head + [c] + last, c);
      == { SplitAfterHead(head, c, last); }
        Split(head, c) + [last];
      == { SplitJoin(init, c); }
        init + [last];
      }
    }
  }

  lemma JoinSnoc(init: seq<string>, last: string, sep: string)
    requires |init| >= 1
    ensures Join(init + [last], sep) == Join(init, sep) + sep + last
  {
    assert (init + [last])[..|init|] == init;
  }

  /** Splitting `head + [c] + last` where `last` holds no `c` splits `head` and then adds `last`. */
  lemma SplitAfterHead(head: string, c: char, last: string)
    requires c !in last
    ensures Split(head + [c] + last, c) == Split(head, c) + [last]
  {
    var s := head + [c] + last;
    assert s[|head| + 1..] == last;
    LastIndexAt(s, c, |head|);
    assert s[..|head|] == head;
  }

  /** A string with one separator between two separator-free parts counts one. */
  lemma SingleSeparator(a: string, c: char, b: string)
    requires c !in a && c !in b
    ensures multiset(a + [c] + b)[c] == 1
  {
    assert multiset(a)[c] == 0 && multiset(b)[c] == 0;
  }

  /** Removing a suffix the string was built with. */
  lemma SuffixRemoved(bare: string, suffix: string)
    requires suffix != []
    ensures RemoveSuffix(bare + suffix, suffix) == bare
  {
    var s := bare + suffix;
    assert s[|s| - |suffix|..] == suffix;
  }

  /** `name` follows the separator `c`, and holds none of `seps`. */
  lemma AfterSeparator(head: string, c: char, seps: set<char>, name: string)
    requires c in seps
    requires forall i :: 0 <= i < |name| ==> name[i] !in seps
    ensures AfterLast(head + [c] + name, seps, name)
  {
    var s := head + [c] + name;
    assert s[|s| - |name|..] == name;
    assert s[|s| - |name| - 1] == c;
  }

  /** `path` follows the separator `c` and holds exactly one more `c`. */
  lemma AfterSecondSeparator(head: string, c: char, path: string)
    requires multiset(path)[c] == 1
    ensures AfterSecondLast(head + [c] + path, c, path)
  {
    var s := head + [c] + path;
    assert s[|s| - |path|..] == path;
    assert s[|s| - |path| - 1] == c;
  }

  /** A string is what comes before position `j`, the character there, and what follows. */
  lemma Around(s: string, j: nat)
    requires j < |s|
    ensures s == s[..j] + [s[j]] + s[j + 1..]
  {
  }
}
