/** The handful of Go `strings` functions the client relies on, defined on
    `seq<char>` with the contracts the callers depend on. Separators are
    always non-empty at the call sites, so the empty-separator cases of Go's
    `Split` and `Replace` are excluded by precondition. */
module GoStrings {

  predicate HasPrefix(s: string, prefix: string)
  {
    |prefix| <= |s| && s[..|prefix|] == prefix
  }

  predicate HasSuffix(s: string, suffix: string)
  {
    |suffix| <= |s| && s[|s| - |suffix|..] == suffix
  }

  /** `strings.TrimPrefix`: drops `prefix` once when `s` starts with it. */
  function TrimPrefix(s: string, prefix: string): (r: string)
    ensures HasPrefix(s, prefix) ==> prefix + r == s
    ensures !HasPrefix(s, prefix) ==> r == s
  {
    if HasPrefix(s, prefix) then s[|prefix|..] else s
  }

  /** `strings.TrimSuffix`: drops `suffix` once when `s` ends with it. */
  function TrimSuffix(s: string, suffix: string): (r: string)
    ensures HasSuffix(s, suffix) ==> r + suffix == s
    ensures !HasSuffix(s, suffix) ==> r == s
  {
    if HasSuffix(s, suffix) then s[..|s| - |suffix|] else s
  }

  lemma TrimPrefixOfConcat(prefix: string, t: string)
    ensures TrimPrefix(prefix + t, prefix) == t
  {
    assert (prefix + t)[..|prefix|] == prefix;
  }

  lemma TrimSuffixOfConcat(t: string, suffix: string)
    ensures TrimSuffix(t + suffix, suffix) == t
  {
    assert (t + suffix)[|t + suffix| - |suffix|..] == suffix;
  }

  /** `unicode.IsSpace`, the predicate `strings.TrimSpace` trims by. */
  predicate IsSpace(c: char)
  {
    var n := c as int;
    || n == 0x20 || 0x09 <= n <= 0x0D || n == 0x85 || n == 0xA0
    || n == 0x1680 || 0x2000 <= n <= 0x200A || n == 0x2028 || n == 0x2029
    || n == 0x202F || n == 0x205F || n == 0x3000
  }

  function TrimLeftSpace(s: string): (r: string)
    ensures |r| <= |s| && r == s[|s| - |r|..]
    ensures forall i :: 0 <= i < |s| - |r| ==> IsSpace(s[i])
    ensures |r| > 0 ==> !IsSpace(r[0])
    decreases |s|
  {
    if |s| > 0 && IsSpace(s[0]) then TrimLeftSpace(s[1..]) else s
  }

  function TrimRightSpace(s: string): (r: string)
    ensures |r| <= |s| && r == s[..|r|]
    ensures forall i :: |r| <= i < |s| ==> IsSpace(s[i])
    ensures |r| > 0 ==> !IsSpace(r[|r| - 1])
    decreases |s|
  {
    if |s| > 0 && IsSpace(s[|s| - 1]) then TrimRightSpace(s[..|s| - 1]) else s
  }

  /** `strings.TrimSpace`: the longest infix with no white space at either
      end, obtained by removing only white space. */
  function TrimSpace(s: string): (r: string)
    ensures |r| <= |s|
    ensures |r| > 0 ==> !IsSpace(r[0]) && !IsSpace(r[|r| - 1])
    ensures (|s| == 0 || (!IsSpace(s[0]) && !IsSpace(s[|s| - 1]))) ==> r == s
  {
    var l := TrimLeftSpace(s);
    var r := TrimRightSpace(l);
    assert |r| > 0 ==> r[0] == l[0];
    r
  }

  predicate AllSpace(s: string)
  {
    forall i :: 0 <= i < |s| ==> IsSpace(s[i])
  }

  lemma {:induction false} TrimLeftSpaceSkips(pre: string, t: string)
    requires AllSpace(pre)
    requires |t| == 0 || !IsSpace(t[0])
    ensures TrimLeftSpace(pre + t) == t
    decreases |pre|
  {
    if |pre| == 0 {
      assert pre + t == t;
    } else {
      assert (pre + t)[1..] == pre[1..] + t;
      TrimLeftSpaceSkips(pre[1..], t);
    }
  }

  lemma {:induction false} TrimRightSpaceSkips(t: string, post: string)
    requires AllSpace(post)
    requires |t| == 0 || !IsSpace(t[|t| - 1])
    ensures TrimRightSpace(t + post) == t
    decreases |post|
  {
    if |post| == 0 {
      assert t + post == t;
    } else {
      var s := t + post;
      assert s[..|s| - 1] == t + post[..|post| - 1];
      TrimRightSpaceSkips(t, post[..|post| - 1]);
    }
  }

  /** `TrimSpace` removes exactly the white space padding around a text
      that has none at its ends. */
  lemma TrimSpaceStripsPadding(pre: string, x: string, post: string)
    requires AllSpace(pre) && AllSpace(post)
    requires |x| == 0 || (!IsSpace(x[0]) && !IsSpace(x[|x| - 1]))
    ensures TrimSpace(pre + x + post) == x
  {
    if |x| == 0 {
      assert pre + x + post == (pre + post) + "";
      assert AllSpace(pre + post);
      TrimLeftSpaceSkips(pre + post, "");
    } else {
      assert pre + x + post == pre + (x + post);
      TrimLeftSpaceSkips(pre, x + post);
      TrimRightSpaceSkips(x, post);
    }
  }

  /** `sep` starts at position `i` of `s`. */
  predicate OccursAt(s: string, sep: string, i: int)
  {
    0 <= i && i + |sep| <= |s| && s[i..i + |sep|] == sep
  }

  lemma OccursAtTail(s: string, sep: string)
    requires |s| > 0
    ensures forall j :: 1 <= j ==> (OccursAt(s, sep, j) <==> OccursAt(s[1..], sep, j - 1))
  {
    forall j | 1 <= j
      ensures OccursAt(s, sep, j) <==> OccursAt(s[1..], sep, j - 1)
    {
      if j + |sep| <= |s| {
        var a, b := s[j..j + |sep|], s[1..][j - 1..j - 1 + |sep|];
        forall k | 0 <= k < |a|
          ensures a[k] == b[k]
        {
        }
        assert a == b;
      }
    }
  }

  /** `strings.Index`: the first position of `sep` in `s`, or -1. */
  function Index(s: string, sep: string): (r: int)
    requires |sep| > 0
    ensures r == -1 || OccursAt(s, sep, r)
    ensures r == -1 ==> forall j :: !OccursAt(s, sep, j)
    ensures r != -1 ==> forall j :: 0 <= j < r ==> !OccursAt(s, sep, j)
    decreases |s|
  {
    if |s| < |sep| then -1
    else if s[..|sep|] == sep then 0
    else
      var j := Index(s[1..], sep);
      OccursAtTail(s, sep);
      assert !OccursAt(s, sep, 0);
      if j == -1 then -1 else j + 1
  }

  /** `strings.Join`. */
  function Join(parts: seq<string>, sep: string): string
  {
    if |parts| == 0 then ""
    else if |parts| == 1 then parts[0]
    else parts[0] + sep + Join(parts[1..], sep)
  }

  lemma JoinCons(head: string, tail: seq<string>, sep: string)
    requires |tail| >= 1
    ensures Join([head] + tail, sep) == head + sep + Join(tail, sep)
  {
    assert ([head] + tail)[1..] == tail;
  }

  lemma NoOccurrenceBeforeFirst(s: string, sep: string, i: int)
    requires |sep| > 0
    requires 0 <= i <= |s|
    requires forall j :: 0 <= j < i ==> !OccursAt(s, sep, j)
    ensures Index(s[..i], sep) == -1
  {
    var k := Index(s[..i], sep);
    if k != -1 {
      assert s[..i][k..k + |sep|] == s[k..k + |sep|];
      assert OccursAt(s, sep, k);
    }
  }

  /** `strings.Split` with a non-empty separator: the pieces between the
      occurrences of `sep`, found left to right without overlap. */
  function Split(s: string, sep: string): (parts: seq<string>)
    requires |sep| > 0
    ensures |parts| >= 1
    ensures Join(parts, sep) == s
    decreases |s|
  {
    var i := Index(s, sep);
    if i == -1 then [s]
    else
      var rest := Split(s[i + |sep|..], sep);
      JoinCons(s[..i], rest, sep);
      assert s == s[..i] + sep + s[i + |sep|..];
      [s[..i]] + rest
  }

  /** No piece of a split contains the separator. */
  lemma {:induction false} SplitPiecesAvoidSeparator(s: string, sep: string)
    requires |sep| > 0
    ensures forall k :: 0 <= k < |Split(s, sep)| ==> Index(Split(s, sep)[k], sep) == -1
    decreases |s|
  {
    var i := Index(s, sep);
    if i != -1 {
      SplitPiecesAvoidSeparator(s[i + |sep|..], sep);
      NoOccurrenceBeforeFirst(s, sep, i);
      assert Split(s, sep) == [s[..i]] + Split(s[i + |sep|..], sep);
    }
  }

  lemma SplitWithoutSeparator(s: string, sep: string)
    requires |sep| > 0
    requires Index(s, sep) == -1
    ensures Split(s, sep) == [s]
  {
  }

  /** Splitting on a one-character separator at its first occurrence. */
  lemma SplitAtFirst(a: string, c: char, b: string)
    requires c !in a
    ensures Split(a + [c] + b, [c]) == [a] + Split(b, [c])
  {
    var s := a + [c] + b;
    assert OccursAt(s, [c], |a|) by {
      assert s[|a|..|a| + 1] == [c];
    }
    forall j | 0 <= j < |a|
      ensures !OccursAt(s, [c], j)
    {
      assert s[j..j + 1] == [a[j]];
    }
    var i := Index(s, [c]);
    assert i == |a|;
    assert s[..i] == a;
    assert s[i + 1..] == b;
  }

  /** A one-character separator is absent from `s` exactly when `Index`
      reports -1. */
  lemma IndexOfChar(s: string, c: char)
    ensures Index(s, [c]) == -1 <==> c !in s
  {
    if c in s {
      var j :| 0 <= j < |s| && s[j] == c;
      assert s[j..j + 1] == [c];
      assert OccursAt(s, [c], j);
    } else {
      forall j | 0 <= j < |s|
        ensures !OccursAt(s, [c], j)
      {
        assert s[j..j + 1] == [s[j]];
      }
    }
  }

  /** Lines each followed by the terminator `c`, as a command prints them. */
  function Terminated(lines: seq<string>, c: char): string
  {
    if |lines| == 0 then "" else lines[0] + [c] + Terminated(lines[1..], c)
  }

  /** Splitting terminated lines on the terminator gives the lines back,
      followed by the empty text after the last terminator. */
  lemma {:induction false} SplitTerminated(lines: seq<string>, c: char)
    requires forall i :: 0 <= i < |lines| ==> c !in lines[i]
    ensures Split(Terminated(lines, c), [c]) == lines + [""]
    decreases |lines|
  {
    if |lines| == 0 {
      IndexOfChar("", c);
      SplitWithoutSeparator("", [c]);
    } else {
      SplitAtFirst(lines[0], c, Terminated(lines[1..], c));
      SplitTerminated(lines[1..], c);
      assert [lines[0]] + (lines[1..] + [""]) == lines + [""];
    }
  }

  /** `strings.ReplaceAll` with a non-empty `old`, scanning left to right. */
  function ReplaceAll(s: string, pat: string, repl: string): string
    requires |pat| > 0
    decreases |s|
  {
    if |s| < |pat| then s
    else if s[..|pat|] == pat then repl + ReplaceAll(s[|pat|..], pat, repl)
    else [s[0]] + ReplaceAll(s[1..], pat, repl)
  }

  lemma SplitStep(s: string, sep: string)
    requires |sep| > 0
    requires Index(s, sep) != -1
    ensures var i := Index(s, sep);
      Split(s, sep) == [s[..i]] + Split(s[i + |sep|..], sep)
  {
  }

  lemma IndexStep(s: string, sep: string)
    requires |sep| > 0
    requires |s| >= |sep| && s[..|sep|] != sep
    ensures Index(s, sep) == (if Index(s[1..], sep) == -1 then -1 else Index(s[1..], sep) + 1)
  {
  }

  /** When `s` does not start with `pat`, splitting `s` splits its tail and
      glues the first character back onto the first piece. */
  lemma SplitSkipsFirstNone(s: string, pat: string, repl: string)
    requires |pat| > 0
    requires |s| >= |pat| && s[..|pat|] != pat
    requires Index(s[1..], pat) == -1
    ensures Join(Split(s, pat), repl) == [s[0]] + Join(Split(s[1..], pat), repl)
  {
    IndexStep(s, pat);
    assert Split(s, pat) == [s];
    assert Split(s[1..], pat) == [s[1..]];
    assert [s[0]] + s[1..] == s;
  }

  lemma JoinConsChar(c: char, piece: string, tail: seq<string>, repl: string)
    requires |tail| >= 1
    ensures Join([[c] + piece] + tail, repl) == [c] + Join([piece] + tail, repl)
  {
    JoinCons([c] + piece, tail, repl);
    JoinCons(piece, tail, repl);
  }

  lemma SplitSkipsFirstSome(s: string, pat: string, repl: string)
    requires |pat| > 0
    requires |s| >= |pat| && s[..|pat|] != pat
    requires Index(s[1..], pat) != -1
    ensures Join(Split(s, pat), repl) == [s[0]] + Join(Split(s[1..], pat), repl)
  {
    var head, tail := SplitSkipsFirstParts(s, pat);
    JoinConsChar(s[0], head, tail, repl);
  }

  /** When `s` does not start with `pat` but its tail holds it, the first
      piece of the split of `s` is the first character followed by the first
      piece of the tail's split, and the remaining pieces agree. */
  lemma SplitSkipsFirstParts(s: string, pat: string) returns (head: string, tail: seq<string>)
    requires |pat| > 0
    requires |s| >= |pat| && s[..|pat|] != pat
    requires Index(s[1..], pat) != -1
    ensures Split(s, pat) == [[s[0]] + head] + tail
    ensures Split(s[1..], pat) == [head] + tail
  {
    var t := s[1..];
    var j := Index(t, pat);
    var i := j + 1;
    assert Index(s, pat) == i by {
      IndexStep(s, pat);
    }
    ShiftedSlices(s, i, |pat|);
    head := s[1..i];
    tail := Split(s[i + |pat|..], pat);
    SplitStep(s, pat);
    SplitStep(t, pat);
  }

  /** Slicing after dropping the first character shifts every index by one. */
  lemma ShiftedSlices(s: string, i: nat, n: nat)
    requires 1 <= i && i + n <= |s|
    ensures s[1..][..i - 1] == s[1..i]
    ensures s[1..][i - 1 + n..] == s[i + n..]
    ensures s[..i] == [s[0]] + s[1..i]
  {
    assert s[..1] == [s[0]];
    assert s[..i] == s[..1] + s[1..i];
  }

  /** Go documents `Replace` as splitting around each occurrence of `old`
      and joining the pieces with `repl`; the scanning definition agrees. */
  lemma {:induction false} ReplaceAllIsJoinOfSplit(s: string, pat: string, repl: string)
    requires |pat| > 0
    ensures ReplaceAll(s, pat, repl) == Join(Split(s, pat), repl)
    decreases |s|
  {
    if |s| < |pat| {
      ReplaceAllShort(s, pat, repl);
    } else if s[..|pat|] == pat {
      ReplaceAllIsJoinOfSplit(s[|pat|..], pat, repl);
      ReplaceAllAtStart(s, pat, repl);
    } else {
      ReplaceAllIsJoinOfSplit(s[1..], pat, repl);
      ReplaceAllSkipsFirst(s, pat, repl);
    }
  }

  lemma ReplaceAllShort(s: string, pat: string, repl: string)
    requires |pat| > 0 && |s| < |pat|
    ensures ReplaceAll(s, pat, repl) == Join(Split(s, pat), repl)
  {
    assert Index(s, pat) == -1;
  }

  lemma ReplaceAllAtStart(s: string, pat: string, repl: string)
    requires |pat| > 0 && |s| >= |pat| && s[..|pat|] == pat
    requires ReplaceAll(s[|pat|..], pat, repl) == Join(Split(s[|pat|..], pat), repl)
    ensures ReplaceAll(s, pat, repl) == Join(Split(s, pat), repl)
  {
    var rest := s[|pat|..];
    assert Index(s, pat) == 0;
    SplitStep(s, pat);
    assert Split(s, pat) == [""] + Split(rest, pat);
    JoinCons("", Split(rest, pat), repl);
  }

  lemma ReplaceAllSkipsFirst(s: string, pat: string, repl: string)
    requires |pat| > 0 && |s| >= |pat| && s[..|pat|] != pat
    requires ReplaceAll(s[1..], pat, repl) == Join(Split(s[1..], pat), repl)
    ensures ReplaceAll(s, pat, repl) == Join(Split(s, pat), repl)
  {
    if Index(s[1..], pat) == -1 {
      SplitSkipsFirstNone(s, pat, repl);
    } else {
      SplitSkipsFirstSome(s, pat, repl);
    }
  }

  /** Replacing by "" leaves a string without `old` unchanged. */
  lemma ReplaceAllWithoutOccurrence(s: string, pat: string, repl: string)
    requires |pat| > 0
    requires Index(s, pat) == -1
    ensures ReplaceAll(s, pat, repl) == s
  {
    ReplaceAllIsJoinOfSplit(s, pat, repl);
  }

  function DigitChar(d: nat): char
    requires d < 10
  {
    ['0', '1', '2', '3', '4', '5', '6', '7', '8', '9'][d]
  }

  /** `%v` of a non-negative integer: its decimal digits. */
  function DecimalString(n: nat): (r: string)
    ensures |r| >= 1
    ensures forall i :: 0 <= i < |r| ==> '0' <= r[i] <= '9'
    decreases n
  {
    if n < 10 then [DigitChar(n)] else DecimalString(n / 10) + [DigitChar(n % 10)]
  }

  function DecimalValue(s: string): nat
    requires forall i :: 0 <= i < |s| ==> '0' <= s[i] <= '9'
    decreases |s|
  {
    if |s| == 0 then 0
    else DecimalValue(s[..|s| - 1]) * 10 + (s[|s| - 1] as int - '0' as int)
  }

  /** The decimal rendering can be read back. */
  lemma {:induction false} DecimalRoundTrip(n: nat)
    ensures DecimalValue(DecimalString(n)) == n
    decreases n
  {
    var r := DecimalString(n);
    if n >= 10 {
      DecimalRoundTrip(n / 10);
      assert r[..|r| - 1] == DecimalString(n / 10);
    }
  }
}
