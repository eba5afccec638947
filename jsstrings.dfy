/** The JavaScript string operations the dashboard relies on (`trim`, `replace`,
    `includes`, `split`, `indexOf`), on `string` = `seq<char>`. */
module JsStrings {

  /** Characters removed by `String.prototype.trim`: the WhiteSpace and
      LineTerminator code points of ECMAScript (section 12.2 and 12.3 of ECMA-262). */
  predicate IsJsSpace(c: char) {
    c == '\t' || c == '\n' || c == '\U{000B}' || c == '\U{000C}' || c == '\r' || c == ' ' ||
    c == '\U{00A0}' || c == '\U{1680}' || ('\U{2000}' <= c <= '\U{200A}') ||
    c == '\U{2028}' || c == '\U{2029}' || c == '\U{202F}' || c == '\U{205F}' || c == '\U{3000}' ||
    c == '\U{FEFF}'
  }

  /** Leading whitespace removed: the result is a suffix of `s`, everything cut
      off is whitespace, and the result does not start with whitespace. */
  function TrimStart(s: string): (r: string)
    ensures |r| <= |s| && r == s[|s| - |r|..]
    ensures forall j :: 0 <= j < |s| - |r| ==> IsJsSpace(s[j])
    ensures r == [] || !IsJsSpace(r[0])
  {
    if s != [] && IsJsSpace(s[0]) then TrimStart(s[1..]) else s
  }

  /** Trailing whitespace removed: the result is a prefix of `s`, everything cut
      off is whitespace, and the result does not end with whitespace. */
  function TrimEnd(s: string): (r: string)
    ensures |r| <= |s| && r == s[..|r|]
    ensures forall j :: |r| <= j < |s| ==> IsJsSpace(s[j])
    ensures r == [] || !IsJsSpace(r[|r| - 1])
  {
    if s != [] && IsJsSpace(s[|s| - 1]) then TrimEnd(s[..|s| - 1]) else s
  }

  /** `s.trim()`. */
  function Trim(s: string): string {
    TrimEnd(TrimStart(s))
  }

  lemma {:induction false} TrimStartOfClean(s: string)
    requires s == [] || !IsJsSpace(s[0])
    ensures TrimStart(s) == s
  {
  }

  lemma {:induction false} TrimEndOfClean(s: string)
    requires s == [] || !IsJsSpace(s[|s| - 1])
    ensures TrimEnd(s) == s
  {
  }

  /** Trimming is idempotent; a string with no whitespace at either end is left as it is. */
  lemma TrimIdempotent(s: string)
    ensures Trim(Trim(s)) == Trim(s)
    ensures (s == [] || (!IsJsSpace(s[0]) && !IsJsSpace(s[|s| - 1]))) ==> Trim(s) == s
  {
    var t := Trim(s);
    var u := TrimStart(s);
    if t != [] {
      assert t == u[..|t|];
      assert t[0] == u[0];
    }
    TrimStartOfClean(t);
    TrimEndOfClean(t);
    if s == [] || (!IsJsSpace(s[0]) && !IsJsSpace(s[|s| - 1])) {
      TrimStartOfClean(s);
      TrimEndOfClean(s);
    }
  }

  /** A prefix and a suffix of `s` hold only characters of `s`. */
  lemma SplitMultiset(s: string, k: nat)
    requires k <= |s|
    ensures multiset(s[..k]) <= multiset(s) && multiset(s[k..]) <= multiset(s)
  {
    assert s == s[..k] + s[k..];
  }

  /** Trimming only removes characters. */
  lemma TrimMultiset(s: string)
    ensures multiset(Trim(s)) <= multiset(s)
  {
    var u := TrimStart(s);
    var t := TrimEnd(u);
    SplitMultiset(s, |s| - |u|);
    SplitMultiset(u, |t|);
  }

  /** Number of occurrences of `c` in `s`. */
  function Count(s: string, c: char): (k: nat)
    ensures k <= |s|
    ensures k == 0 <==> c !in s
  {
    if s == [] then 0 else (if s[0] == c then 1 else 0) + Count(s[1..], c)
  }

  lemma {:induction false} CountAppend(a: string, b: string, c: char)
    ensures Count(a + b, c) == Count(a, c) + Count(b, c)
  {
    if a != [] {
      assert (a + b)[0] == a[0];
      assert (a + b)[1..] == a[1..] + b;
      CountAppend(a[1..], b, c);
      assert Count(a + b, c) == (if a[0] == c then 1 else 0) + Count(a[1..] + b, c);
    } else {
      assert a + b == b;
    }
  }

  /** `s.replace(/c/g, '')` for a one-character pattern: every `c` removed, all
      other characters kept in order. */
  function RemoveAll(s: string, c: char): (r: string)
    ensures c !in r
    ensures |r| == |s| - Count(s, c)
    ensures multiset(r) == multiset(s)[c := 0]
  {
    if s == [] then []
    else if s[0] == c then
      assert s == [s[0]] + s[1..];
      RemoveAll(s[1..], c)
    else
      assert s == [s[0]] + s[1..];
      [s[0]] + RemoveAll(s[1..], c)
  }

  /** Removing a character that does not occur changes nothing, so removing twice
      is removing once. */
  lemma {:induction false} RemoveAllAbsent(s: string, c: char)
    requires c !in s
    ensures RemoveAll(s, c) == s
  {
    if s != [] {
      RemoveAllAbsent(s[1..], c);
    }
  }

  lemma {:induction false} RemoveAllAppend(a: string, b: string, c: char)
    ensures RemoveAll(a + b, c) == RemoveAll(a, c) + RemoveAll(b, c)
  {
    if a == [] {
      assert a + b == b;
    } else {
      assert (a + b)[0] == a[0];
      assert (a + b)[1..] == a[1..] + b;
      RemoveAllAppend(a[1..], b, c);
    }
  }

  /** `pat` occurs in `s` starting at index `k`. */
  predicate OccursAt(s: string, pat: string, k: nat) {
    k + |pat| <= |s| && s[k..k + |pat|] == pat
  }

  /** `s.includes(pat)`. */
  predicate Includes(s: string, pat: string) {
    exists k: nat | k <= |s| :: OccursAt(s, pat, k)
  }

  /** `s.indexOf(pat, from)`: the first occurrence at or after `from`, or -1. */
  function IndexOfFrom(s: string, pat: string, from: nat): (r: int)
    requires from <= |s|
    ensures r == -1 || (from <= r && OccursAt(s, pat, r))
    ensures r == -1 ==> forall k: nat :: from <= k <= |s| ==> !OccursAt(s, pat, k)
    ensures r >= 0 ==> forall k: nat :: from <= k < r ==> !OccursAt(s, pat, k)
    decreases |s| - from
  {
    if from + |pat| > |s| then -1
    else if s[from..from + |pat|] == pat then from
    else if from == |s| then -1
    else IndexOfFrom(s, pat, from + 1)
  }

  /** `s.indexOf(pat)`; it is non-negative exactly when `s.includes(pat)`. */
  function IndexOf(s: string, pat: string): (r: int)
    ensures r == -1 || (r >= 0 && OccursAt(s, pat, r))
    ensures r >= 0 ==> forall k: nat :: k < r ==> !OccursAt(s, pat, k)
    ensures r >= 0 <==> Includes(s, pat)
  {
    IndexOfFrom(s, pat, 0)
  }

  /** `s.replace(pat, rep)` with a string pattern: only the first occurrence is replaced. */
  function ReplaceFirst(s: string, pat: string, rep: string): string {
    var i := IndexOf(s, pat);
    if i < 0 then s else s[..i] + rep + s[i + |pat|..]
  }

  /** What `replace` does with the first occurrence: a string free of `pat` is
      returned unchanged, a string that starts with `pat` loses exactly that
      prefix, and otherwise the text before the first occurrence is kept and the
      string shrinks by `|pat| - |rep|`. */
  lemma ReplaceFirstCases(s: string, pat: string, rep: string)
    ensures !Includes(s, pat) ==> ReplaceFirst(s, pat, rep) == s
    ensures Includes(s, pat) ==> |ReplaceFirst(s, pat, rep)| == |s| - |pat| + |rep|
    ensures forall t :: s == pat + t ==> ReplaceFirst(s, pat, rep) == rep + t
    ensures Includes(s, pat) ==>
      exists i: nat :: OccursAt(s, pat, i) && (forall k: nat :: k < i ==> !OccursAt(s, pat, k)) &&
        ReplaceFirst(s, pat, rep) == s[..i] + rep + s[i + |pat|..]
  {
    if Includes(s, pat) {
      var i: nat := IndexOf(s, pat);
      assert OccursAt(s, pat, i);
    }
    forall t | s == pat + t
      ensures ReplaceFirst(s, pat, rep) == rep + t
    {
      assert OccursAt(s, pat, 0);
      assert IndexOf(s, pat) == 0;
      assert s[|pat|..] == t;
    }
  }

  /** `s.split(sep)` for a one-character separator. */
  function Split(s: string, sep: char): (parts: seq<string>)
    ensures |parts| >= 1
  {
    if s == [] then [""]
    else
      var rest := Split(s[1..], sep);
      if s[0] == sep then [""] + rest
      else [[s[0]] + rest[0]] + rest[1..]
  }

  /** No part contains the separator. */
  lemma {:induction false} SplitSepFree(s: string, sep: char)
    ensures forall i | 0 <= i < |Split(s, sep)| :: sep !in Split(s, sep)[i]
  {
    if s != [] {
      var rest := Split(s[1..], sep);
      SplitSepFree(s[1..], sep);
      var parts := Split(s, sep);
      if s[0] == sep {
        assert forall i | 1 <= i < |parts| :: parts[i] == rest[i - 1];
      } else {
        assert forall i | 1 <= i < |parts| :: parts[i] == rest[i];
        assert sep !in rest[0];
      }
    }
  }

  /** `parts.join(sep)`. */
  function Join(parts: seq<string>, sep: char): string
    requires |parts| >= 1
  {
    if |parts| == 1 then parts[0] else parts[0] + [sep] + Join(parts[1..], sep)
  }

  /** `split` returns one more part than there are separators. */
  lemma {:induction false} SplitLength(s: string, sep: char)
    ensures |Split(s, sep)| == Count(s, sep) + 1
  {
    if s != [] {
      SplitLength(s[1..], sep);
    }
  }

  /** Joining the parts with the separator gives back the string. */
  lemma {:induction false} JoinSplit(s: string, sep: char)
    ensures Join(Split(s, sep), sep) == s
  {
    if s != [] {
      var rest := Split(s[1..], sep);
      JoinSplit(s[1..], sep);
      if s[0] == sep {
        assert Split(s, sep)[1..] == rest;
        assert s == [sep] + s[1..];
      } else {
        var parts := Split(s, sep);
        assert parts[1..] == rest[1..];
        if |rest| == 1 {
          assert s == [s[0]] + rest[0];
        } else {
          assert Join(rest, sep) == rest[0] + [sep] + Join(rest[1..], sep);
          assert s == [s[0]] + s[1..];
        }
      }
    }
  }

  /** `s.split(sep).pop()`: the text after the last separator. */
  function LastSegment(s: string, sep: char): string {
    var parts := Split(s, sep);
    parts[|parts| - 1]
  }

  /** The last segment is the part of `s` after its last separator: it is a
      separator-free suffix, it is all of `s` when `s` has no separator, and it
      is preceded by a separator otherwise. */
  lemma {:induction false} LastSegmentIsSuffix(s: string, sep: char)
    ensures sep !in LastSegment(s, sep)
    ensures |LastSegment(s, sep)| <= |s| && LastSegment(s, sep) == s[|s| - |LastSegment(s, sep)|..]
    ensures sep !in s ==> LastSegment(s, sep) == s
    ensures sep in s ==> |LastSegment(s, sep)| < |s| && s[|s| - |LastSegment(s, sep)| - 1] == sep
  {
    if s != [] {
      var tail := s[1..];
      var seg := LastSegment(tail, sep);
      LastSegmentIsSuffix(tail, sep);
      LastSegmentCons(s, sep);
      if s[0] == sep || sep in tail {
        assert s[|s| - |seg|..] == tail[|tail| - |seg|..];
        if sep in tail {
          assert s[|s| - |seg| - 1] == tail[|tail| - |seg| - 1];
        }
      } else {
        assert s == [s[0]] + tail;
      }
    }
  }

  /** One step of `split(sep).pop()`: the first character joins the last
      segment only when no separator follows it. */
  lemma LastSegmentCons(s: string, sep: char)
    requires s != []
    ensures LastSegment(s, sep) ==
      if s[0] != sep && sep !in s[1..] then [s[0]] + LastSegment(s[1..], sep) else LastSegment(s[1..], sep)
  {
    var tail := s[1..];
    var rest := Split(tail, sep);
    var parts := Split(s, sep);
    var last := rest[|rest| - 1];
    SplitLength(tail, sep);
    assert LastSegment(s, sep) == parts[|parts| - 1];
    assert LastSegment(tail, sep) == last;
    if s[0] == sep {
      assert parts == [""] + rest;
      assert parts[|parts| - 1] == last;
    } else if sep !in tail {
      assert |rest| == 1;
      assert parts == [[s[0]] + rest[0]];
      assert parts[|parts| - 1] == [s[0]] + last;
    } else {
      assert |rest| > 1;
      assert parts == [[s[0]] + rest[0]] + rest[1..];
      assert parts[|parts| - 1] == last;
    }
  }

  /** Dropping the first character does not change the last segment when a
      separator remains after it. */
  lemma {:induction false} LastSegmentTail(s: string, sep: char)
    requires s != [] && (s[0] == sep || sep in s[1..])
    ensures LastSegment(s, sep) == LastSegment(s[1..], sep)
  {
    if s[0] != sep {
      SplitLength(s[1..], sep);
    }
  }

  /** The last segment of `prefix + [sep] + seg` is `seg` when `seg` has no separator. */
  lemma {:induction false} LastSegmentAfter(prefix: string, sep: char, seg: string)
    requires sep !in seg
    ensures LastSegment(prefix + [sep] + seg, sep) == seg
  {
    var s := prefix + [sep] + seg;
    if prefix == [] {
      assert s[1..] == seg;
      LastSegmentTail(s, sep);
      LastSegmentIsSuffix(seg, sep);
    } else {
      assert s[1..] == prefix[1..] + [sep] + seg;
      assert s[1..][|prefix| - 1] == sep;
      LastSegmentTail(s, sep);
      LastSegmentAfter(prefix[1..], sep, seg);
    }
  }
}
