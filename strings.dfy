/** The Python string operations the agents use, on `string` = `seq<char>`
    (one `char` per Unicode code point, as in Python 3). */
module Strings {

  // ---------------------------------------------------------------------
  // Whitespace and str.strip()
  // ---------------------------------------------------------------------

  /** Python's `str.isspace()` on one character: exactly the code points that
      `str.strip()` without arguments removes. */
  predicate IsSpace(c: char) {
    || ('\U{9}' <= c <= '\U{D}')
    || ('\U{1C}' <= c <= '\U{20}')
    || c == '\U{85}' || c == '\U{A0}' || c == '\U{1680}'
    || ('\U{2000}' <= c <= '\U{200A}')
    || c == '\U{2028}' || c == '\U{2029}' || c == '\U{202F}' || c == '\U{205F}'
    || c == '\U{3000}'
  }

  /** How many whitespace characters `s` starts with. */
  function LeadingSpaces(s: string): (n: nat)
    ensures n <= |s|
  {
    if |s| > 0 && IsSpace(s[0]) then 1 + LeadingSpaces(s[1..]) else 0
  }

  /** The leading run is whitespace and ends at a non-space (or at the end). */
  lemma {:induction false} LeadingSpacesAreSpaces(s: string)
    ensures forall i :: 0 <= i < LeadingSpaces(s) ==> IsSpace(s[i])
    ensures LeadingSpaces(s) < |s| ==> !IsSpace(s[LeadingSpaces(s)])
    decreases |s|
  {
    if |s| > 0 && IsSpace(s[0]) {
      LeadingSpacesAreSpaces(s[1..]);
      assert forall i :: 1 <= i < |s| ==> s[i] == s[1..][i - 1];
    }
  }

  /** How many whitespace characters `s` ends with. */
  function TrailingSpaces(s: string): (n: nat)
    ensures n <= |s|
  {
    if |s| > 0 && IsSpace(s[|s| - 1]) then 1 + TrailingSpaces(s[..|s| - 1]) else 0
  }

  /** The trailing run is whitespace and starts after a non-space (or at the start). */
  lemma {:induction false} TrailingSpacesAreSpaces(s: string)
    ensures forall i :: |s| - TrailingSpaces(s) <= i < |s| ==> IsSpace(s[i])
    ensures TrailingSpaces(s) < |s| ==> !IsSpace(s[|s| - 1 - TrailingSpaces(s)])
    decreases |s|
  {
    if |s| > 0 && IsSpace(s[|s| - 1]) {
      TrailingSpacesAreSpaces(s[..|s| - 1]);
    }
  }

  /** Python's `s.strip()`: the slice of `s` left after removing every leading
      and every trailing whitespace character. */
  function Strip(s: string): (r: string)
    ensures LeadingSpaces(s) + |r| <= |s|
  {
    var t := s[LeadingSpaces(s)..];
    t[..|t| - TrailingSpaces(t)]
  }

  /** What `Strip` keeps is the slice of `s` after its leading whitespace. */
  lemma {:induction false} StripIsSlice(s: string)
    ensures Strip(s) == s[LeadingSpaces(s)..LeadingSpaces(s) + |Strip(s)|]
  {
  }

  /** Python's `s[a:]`: a negative start counts from the end (and clamps at
      the beginning), a start past the end gives the empty string. */
  function SliceFrom(s: string, a: int): (r: string)
    ensures |r| <= |s|
    ensures 0 <= a <= |s| ==> |r| == |s| - a
    ensures a >= |s| ==> |r| == 0
  {
    if a >= |s| then ""
    else if a >= 0 then s[a..]
    else if -a <= |s| then s[|s| + a..]
    else s
  }

  /** What `Strip` removes is whitespace, and what it keeps neither starts
      nor ends with whitespace. */
  lemma {:induction false} StripRemovesSpaces(s: string)
    ensures forall i :: 0 <= i < LeadingSpaces(s) ==> IsSpace(s[i])
    ensures forall i :: LeadingSpaces(s) + |Strip(s)| <= i < |s| ==> IsSpace(s[i])
    ensures Strip(s) != [] ==> !IsSpace(Strip(s)[0]) && !IsSpace(Strip(s)[|Strip(s)| - 1])
  {
    var t := s[LeadingSpaces(s)..];
    var n := TrailingSpaces(t);
    LeadingSpacesAreSpaces(s);
    TrailingSpacesAreSpaces(t);
    assert forall i :: LeadingSpaces(s) + |Strip(s)| <= i < |s| ==> s[i] == t[i - LeadingSpaces(s)];
  }

  predicate AllSpaces(s: string) {
    forall i :: 0 <= i < |s| ==> IsSpace(s[i])
  }

  /** Stripping removes exactly the whitespace padding around a text whose
      first and last characters are not whitespace. */
  /** Stripping text that ends in one newline after a non-space removes
      just that newline. */
  lemma {:induction false} StripFinalNewlineOnly(text: string)
    requires |text| >= 2 && text[|text| - 1] == '\n'
    requires !IsSpace(text[0]) && !IsSpace(text[|text| - 2])
    ensures Strip(text) + "\n" == text
  {
    var body := text[..|text| - 1];
    assert text == "" + body + "\n";
    StripPadded("", body, "\n");
  }

  lemma {:induction false} StripPadded(pre: string, x: string, post: string)
    requires AllSpaces(pre) && AllSpaces(post)
    requires x != [] && !IsSpace(x[0]) && !IsSpace(x[|x| - 1])
    ensures Strip(pre + x + post) == x
  {
    var s := pre + x + post;
    var r := Strip(s);
    var lead := LeadingSpaces(s);
    StripRemovesSpaces(s);
    assert forall i :: 0 <= i < |pre| ==> s[i] == pre[i];
    assert forall i :: |pre| + |x| <= i < |s| ==> s[i] == post[i - |pre| - |x|];
    assert s[|pre|] == x[0];
    assert s[|pre| + |x| - 1] == x[|x| - 1];
    assert lead == |pre|;
    assert r != [];
    assert r[|r| - 1] == s[lead + |r| - 1];
    assert lead + |r| == |pre| + |x|;
    assert s[|pre|..|pre| + |x|] == x;
  }

  // ---------------------------------------------------------------------
  // Substrings: `t in s` and s.find(t)
  // ---------------------------------------------------------------------

  /** `t` occurs in `s` starting at index `i`. */
  predicate OccursAt(s: string, t: string, i: int) {
    0 <= i && i + |t| <= |s| && s[i..i + |t|] == t
  }

  lemma {:induction false} OccursAtShift(s: string, t: string, a: nat, j: int)
    requires a <= |s|
    ensures OccursAt(s[a..], t, j) <==> j >= 0 && OccursAt(s, t, a + j)
  {
    if 0 <= j && j + |t| <= |s| - a {
      assert s[a..][j..j + |t|] == s[a + j..a + j + |t|];
    }
  }

  /** Python's `s.find(t)`: the index of the first occurrence of `t` in `s`,
      or -1 when there is none (`FindIsFirst` states the "first" and the "none"). */
  function Find(s: string, t: string): (r: int)
    ensures -1 <= r && (r >= 0 ==> r + |t| <= |s|)
    decreases |s|
  {
    if |t| > |s| then -1
    else if s[..|t|] == t then 0
    else
      var k := Find(s[1..], t);
      if k < 0 then -1 else k + 1
  }

  /** `Find` returns the first occurrence, and -1 only when there is none. */
  lemma {:induction false} FindIsFirst(s: string, t: string)
    ensures Find(s, t) >= 0 ==> OccursAt(s, t, Find(s, t))
    ensures Find(s, t) >= 0 ==> forall j :: 0 <= j < Find(s, t) ==> !OccursAt(s, t, j)
    ensures Find(s, t) == -1 ==> forall j :: !OccursAt(s, t, j)
    decreases |s|
  {
    if |t| <= |s| && s[..|t|] != t {
      FindIsFirst(s[1..], t);
      if Find(s[1..], t) >= 0 {
        OccursAtShift(s, t, 1, Find(s[1..], t));
      }
      assert !OccursAt(s, t, 0);
      forall j | j >= 1 ensures OccursAt(s, t, j) <==> OccursAt(s[1..], t, j - 1) {
        OccursAtShift(s, t, 1, j - 1);
      }
    }
  }

  /** Python's `t in s`. */
  predicate Contains(s: string, t: string) {
    exists i :: 0 <= i <= |s| - |t| && OccursAt(s, t, i)
  }

  /** `s.find(t)` is -1 exactly when `t in s` is false. */
  lemma {:induction false} FindContains(s: string, t: string)
    ensures Find(s, t) >= 0 <==> Contains(s, t)
  {
    FindIsFirst(s, t);
  }

  lemma {:induction false} OccursContains(s: string, t: string, i: int)
    requires OccursAt(s, t, i)
    ensures Contains(s, t)
  {
  }

  /** A substring of a substring is a substring. */
  lemma {:induction false} OccursTrans(s: string, t: string, u: string, i: int, j: int)
    requires OccursAt(s, t, i) && OccursAt(t, u, j)
    ensures OccursAt(s, u, i + j)
  {
    forall k | 0 <= k < |u| ensures s[i + j..i + j + |u|][k] == u[k] {
      assert u[k] == t[j + k] && t[j + k] == s[i + j + k];
    }
  }

  /** Every string contains itself (so `x in xs or any(x in d for d in xs)`
      is the same test as its second half). */
  lemma {:induction false} ContainsSelf(s: string)
    ensures Contains(s, s)
  {
    assert OccursAt(s, s, 0);
  }

  /** `xs` is `ys` with some elements left out, the rest in order. */
  predicate Subsequence<T(==)>(xs: seq<T>, ys: seq<T>)
    decreases |ys|
  {
    if |ys| == 0 then xs == []
    else
      || (|xs| > 0 && xs[|xs| - 1] == ys[|ys| - 1] && Subsequence(xs[..|xs| - 1], ys[..|ys| - 1]))
      || Subsequence(xs, ys[..|ys| - 1])
  }

  /** Extending a prefix of a sequence by one element. */
  lemma {:induction false} TakeSnoc<T>(s: seq<T>, i: nat)
    requires i < |s|
    ensures s[..i + 1] == s[..i] + [s[i]]
  {
  }

  /** The whole sequence is its longest prefix. */
  lemma {:induction false} TakeAll<T>(s: seq<T>)
    ensures s[..|s|] == s
  {
  }

  // ---------------------------------------------------------------------
  // str.split(sep) and sep.join(parts)
  // ---------------------------------------------------------------------

  /** The index of the first `c` in `s`, or `|s|` when there is none. */
  function IndexOfChar(s: string, c: char): (r: nat)
    ensures r <= |s|
    ensures r < |s| ==> s[r] == c
  {
    if |s| == 0 || s[0] == c then 0 else 1 + IndexOfChar(s[1..], c)
  }

  /** No `c` comes before the index `IndexOfChar` returns. */
  lemma {:induction false} IndexOfCharIsFirst(s: string, c: char)
    ensures c !in s[..IndexOfChar(s, c)]
    decreases |s|
  {
    if |s| > 0 && s[0] != c {
      IndexOfCharIsFirst(s[1..], c);
      assert s[..IndexOfChar(s, c)] == [s[0]] + s[1..][..IndexOfChar(s[1..], c)];
    }
  }

  /** Python's `sep.join(parts)`. */
  function JoinWith(parts: seq<string>, sep: string): string
  {
    if |parts| == 0 then ""
    else if |parts| == 1 then parts[0]
    else parts[0] + sep + JoinWith(parts[1..], sep)
  }

  /** Python's `s.split(sep)` for a one-character separator (never empty). */
  function Split(s: string, sep: char): (parts: seq<string>)
    ensures |parts| >= 1
    decreases |s|
  {
    var i := IndexOfChar(s, sep);
    if i == |s| then [s] else [s[..i]] + Split(s[i + 1..], sep)
  }

  /** No piece of a split holds the separator, and joining the pieces with it
      gives the text back. */
  lemma {:induction false} SplitJoin(s: string, sep: char)
    ensures forall k :: 0 <= k < |Split(s, sep)| ==> sep !in Split(s, sep)[k]
    ensures JoinWith(Split(s, sep), [sep]) == s
    decreases |s|
  {
    var i := IndexOfChar(s, sep);
    IndexOfCharIsFirst(s, sep);
    if i == |s| {
      assert s[..i] == s;
    } else {
      var rest := Split(s[i + 1..], sep);
      SplitJoin(s[i + 1..], sep);
      var parts := [s[..i]] + rest;
      assert parts == Split(s, sep);
      assert parts[1..] == rest;
      assert s == s[..i] + [sep] + s[i + 1..];
    }
  }

  /** Python's `s.split(sep)[-1]`: the text after the last `sep`, or all of `s`. */
  function AfterLast(s: string, sep: char): string {
    var parts := Split(s, sep);
    parts[|parts| - 1]
  }

  /** The last piece is the suffix of `s` after its last separator ... */
  lemma {:induction false} AfterLastIsSuffix(s: string, sep: char)
    ensures |AfterLast(s, sep)| <= |s|
    ensures s[|s| - |AfterLast(s, sep)|..] == AfterLast(s, sep)
    ensures sep !in AfterLast(s, sep)
    decreases |s|
  {
    var i := IndexOfChar(s, sep);
    if i == |s| {
      IndexOfCharIsFirst(s, sep);
      assert s[..i] == s;
    } else {
      var t := s[i + 1..];
      AfterLastIsSuffix(t, sep);
      AfterLastDrop(s, sep);
      var r := AfterLast(t, sep);
      assert s[|s| - |r|..] == t[|t| - |r|..] by {
        DropDrop(s, i + 1, |t| - |r|);
      }
    }
  }

  /** ... and, when it is not all of `s`, a separator precedes it. */
  lemma {:induction false} AfterLastFollowsSep(s: string, sep: char)
    ensures |AfterLast(s, sep)| < |s| ==> s[|s| - |AfterLast(s, sep)| - 1] == sep
    decreases |s|
  {
    var i := IndexOfChar(s, sep);
    if i < |s| {
      var t := s[i + 1..];
      AfterLastIsSuffix(t, sep);
      AfterLastFollowsSep(t, sep);
      AfterLastDrop(s, sep);
      var r := AfterLast(t, sep);
      if |r| < |t| {
        assert s[|s| - |r| - 1] == t[|t| - |r| - 1];
      } else {
        assert s[|s| - |r| - 1] == s[i];
      }
    }
  }

  /** Past the first separator, the last piece is that of the rest. */
  lemma {:induction false} AfterLastDrop(s: string, sep: char)
    requires IndexOfChar(s, sep) < |s|
    ensures AfterLast(s, sep) == AfterLast(s[IndexOfChar(s, sep) + 1..], sep)
  {
    var i := IndexOfChar(s, sep);
    assert Split(s, sep) == [s[..i]] + Split(s[i + 1..], sep);
  }

  /** Where the first `c` of a concatenation lies. */
  lemma {:induction false} IndexOfCharAppend(a: string, b: string, c: char)
    ensures IndexOfChar(a + b, c) ==
      if IndexOfChar(a, c) < |a| then IndexOfChar(a, c) else |a| + IndexOfChar(b, c)
  {
    if |a| > 0 && a[0] != c {
      assert (a + b)[1..] == a[1..] + b;
      IndexOfCharAppend(a[1..], b, c);
    } else if |a| == 0 {
      assert a + b == b;
    }
  }

  /** Splitting a text at a separator splits it into the pieces of both halves. */
  lemma {:induction false} SplitAppend(a: string, sep: char, b: string)
    ensures Split(a + [sep] + b, sep) == Split(a, sep) + Split(b, sep)
    decreases |a|
  {
    var i := IndexOfChar(a, sep);
    IndexOfCharAppend(a, [sep] + b, sep);
    if i == |a| {
      SplitAtFirstSep(a, sep, b);
    } else {
      SplitAppend(a[i + 1..], sep, b);
      SplitBeforeFirstSep(a, sep, b, i);
    }
  }

  /** `a` holds no separator: the first piece is `a` itself. */
  lemma {:induction false} SplitAtFirstSep(a: string, sep: char, b: string)
    requires IndexOfChar(a, sep) == |a|
    ensures Split(a + [sep] + b, sep) == Split(a, sep) + Split(b, sep)
  {
    var s := a + [sep] + b;
    IndexOfCharAppend(a, [sep] + b, sep);
    assert s == a + ([sep] + b);
    assert IndexOfChar([sep] + b, sep) == 0;
    assert s[..|a|] == a && s[|a| + 1..] == b;
  }

  /** `a` holds a separator at `i`: the first piece is `a[..i]` and the rest
      is split recursively. */
  lemma {:induction false} SplitBeforeFirstSep(a: string, sep: char, b: string, i: nat)
    requires i < |a| && IndexOfChar(a, sep) == i
    requires Split(a[i + 1..] + [sep] + b, sep) == Split(a[i + 1..], sep) + Split(b, sep)
    ensures Split(a + [sep] + b, sep) == Split(a, sep) + Split(b, sep)
  {
    assert Split(a + [sep] + b, sep) == [a[..i]] + Split(a[i + 1..] + [sep] + b, sep) by {
      var tail := [sep] + b;
      AppendAssoc(a, [sep], b);
      IndexOfCharAppend(a, tail, sep);
      TakeAppend(a, tail, i);
      DropAppend(a, tail, i + 1);
      AppendAssoc(a[i + 1..], [sep], b);
      assert Split(a + tail, sep) == [a[..i]] + Split(a[i + 1..] + [sep] + b, sep);
    }
    assert Split(a, sep) == [a[..i]] + Split(a[i + 1..], sep);
    AppendAssoc([a[..i]], Split(a[i + 1..], sep), Split(b, sep));
  }

  lemma {:induction false} DropDrop<T>(x: seq<T>, i: nat, j: nat)
    requires i + j <= |x|
    ensures x[i..][j..] == x[i + j..]
  {
  }

  lemma {:induction false} TakeAppend<T>(x: seq<T>, y: seq<T>, i: nat)
    requires i <= |x|
    ensures (x + y)[..i] == x[..i]
  {
  }

  lemma {:induction false} DropAppend<T>(x: seq<T>, y: seq<T>, i: nat)
    requires i <= |x|
    ensures (x + y)[i..] == x[i..] + y
  {
  }

  lemma {:induction false} AppendAssoc<T>(x: seq<T>, y: seq<T>, z: seq<T>)
    ensures x + (y + z) == (x + y) + z
  {
  }

  /** Every piece of a split is a substring of the text that was split. */
  lemma {:induction false} SplitPieceOccurs(s: string, sep: char, k: nat)
    requires k < |Split(s, sep)|
    ensures Contains(s, Split(s, sep)[k])
    decreases |s|
  {
    var i := IndexOfChar(s, sep);
    if i == |s| {
      assert OccursAt(s, s, 0);
    } else if k == 0 {
      assert OccursAt(s, s[..i], 0);
    } else {
      var t := s[i + 1..];
      var piece := Split(t, sep)[k - 1];
      assert Split(s, sep)[k] == piece;
      SplitPieceOccurs(t, sep, k - 1);
      ShiftContains(s, i + 1, piece);
    }
  }

  /** A substring of a suffix is a substring. */
  lemma {:induction false} ShiftContains(s: string, a: nat, piece: string)
    requires a <= |s| && Contains(s[a..], piece)
    ensures Contains(s, piece)
  {
    var f :| 0 <= f <= |s[a..]| - |piece| && OccursAt(s[a..], piece, f);
    OccursAtShift(s, piece, a, f);
    OccursContains(s, piece, a + f);
  }

  /** The stripped text is a substring of every text containing the unstripped one. */
  lemma {:induction false} StripOccurs(s: string, piece: string)
    requires Contains(s, piece)
    ensures Contains(s, Strip(piece))
  {
    var f :| OccursAt(s, piece, f);
    var lead := LeadingSpaces(piece);
    assert OccursAt(piece, Strip(piece), lead);
    OccursTrans(s, piece, Strip(piece), f, lead);
    OccursContains(s, Strip(piece), f + lead);
  }

  // ---------------------------------------------------------------------
  // Character maps: str.lower() and str.replace(a, b) for single characters
  // ---------------------------------------------------------------------

  /** Lower-cases an ASCII letter; every other character is unchanged. */
  function LowerChar(c: char): char {
    if 'A' <= c <= 'Z' then (c as int + 32) as char else c
  }

  /** `s.lower()`, restricted to ASCII letters. */
  function Lower(s: string): (r: string)
    ensures |r| == |s|
    ensures forall i :: 0 <= i < |s| ==> r[i] == LowerChar(s[i])
  {
    if |s| == 0 then "" else [LowerChar(s[0])] + Lower(s[1..])
  }

  /** `s.replace(a, b)` for one-character `a` and `b`. */
  function ReplaceChar(s: string, a: char, b: char): (r: string)
    ensures |r| == |s|
    ensures forall i :: 0 <= i < |s| ==> r[i] == if s[i] == a then b else s[i]
  {
    if |s| == 0 then "" else [if s[0] == a then b else s[0]] + ReplaceChar(s[1..], a, b)
  }

  // ---------------------------------------------------------------------
  // Concatenation of a list of strings
  // ---------------------------------------------------------------------

  /** `parts[0] + parts[1] + ...`, the text that appending each part in turn builds. */
  function Concat(parts: seq<string>): string {
    if |parts| == 0 then "" else Concat(parts[..|parts| - 1]) + parts[|parts| - 1]
  }

  lemma {:induction false} ConcatAppend(parts: seq<string>, p: string)
    ensures Concat(parts + [p]) == Concat(parts) + p
  {
    assert (parts + [p])[..|parts|] == parts;
  }

  /** Appending the parts of `a` and then those of `b` appends both texts. */
  lemma {:induction false} ConcatJoin(a: seq<string>, b: seq<string>)
    ensures Concat(a + b) == Concat(a) + Concat(b)
    decreases |b|
  {
    if |b| == 0 {
      assert a + b == a;
    } else {
      var b' := b[..|b| - 1];
      assert a + b == (a + b') + [b[|b| - 1]];
      ConcatAppend(a + b', b[|b| - 1]);
      ConcatJoin(a, b');
    }
  }

  /** Appending part `i` to a text holding the parts before it. */
  lemma {:induction false} ConcatPrefixStep(start: string, parts: seq<string>, i: nat, before: string)
    requires i < |parts| && before == start + Concat(parts[..i])
    ensures before + parts[i] == start + Concat(parts[..i + 1])
  {
    TakeSnoc(parts, i);
    ConcatAppend(parts[..i], parts[i]);
    AppendAssoc(start, Concat(parts[..i]), parts[i]);
  }

  /** A text built from parts ends as its last part does. */
  lemma {:induction false} ConcatLastChars(start: string, parts: seq<string>)
    requires parts != [] && |parts[|parts| - 1]| >= 2
    ensures var t := start + Concat(parts); var last := parts[|parts| - 1];
      |t| >= 2 && t[|t| - 2] == last[|last| - 2] && t[|t| - 1] == last[|last| - 1]
  {
    assert Concat(parts) == Concat(parts[..|parts| - 1]) + parts[|parts| - 1];
  }

  lemma {:induction false} ConcatEmpty()
    ensures Concat([]) == ""
  {
  }

  lemma {:induction false} ConcatOne(x: string)
    ensures Concat([x]) == x
  {
    assert [x][..0] == [];
  }

  /** A text holding `start` and the parts `shown`, extended by the text of
      the parts `more`, holds `start` and the parts `shown + more`. */
  lemma {:induction false} ConcatStep(start: string, shown: seq<string>, more: seq<string>, before: string, after: string)
    requires before == start + Concat(shown)
    requires after == before + Concat(more)
    ensures after == start + Concat(shown + more)
  {
    ConcatJoin(shown, more);
  }

  /** Python's `s.startswith(prefix)`. */
  predicate HasPrefix(s: string, prefix: string) {
    |prefix| <= |s| && s[..|prefix|] == prefix
  }

  lemma {:induction false} PrefixSelf(s: string)
    ensures HasPrefix(s, s)
  {
    assert s[..|s|] == s;
  }

  /** A prefix stays a prefix when text is appended. */
  lemma {:induction false} PrefixOfAppend(s: string, t: string, prefix: string)
    requires HasPrefix(s, prefix)
    ensures HasPrefix(s + t, prefix)
  {
    assert (s + t)[..|prefix|] == s[..|prefix|];
  }

  // ---------------------------------------------------------------------
  // Decimal numbers: str(n), int(digits)
  // ---------------------------------------------------------------------

  /** An ASCII decimal digit (the `\d` of a pattern, restricted to ASCII). */
  predicate IsDigit(c: char) {
    '0' <= c <= '9'
  }

  predicate AllDigits(s: string) {
    forall i :: 0 <= i < |s| ==> IsDigit(s[i])
  }

  function DigitChar(d: nat): (c: char)
    requires d < 10
    ensures IsDigit(c)
  {
    ('0' as int + d) as char
  }

  /** Python's `int(ds)` for a string of decimal digits (0 for the empty string). */
  function DigitsValue(ds: string): nat
    requires AllDigits(ds)
  {
    if |ds| == 0 then 0
    else 10 * DigitsValue(ds[..|ds| - 1]) + (ds[|ds| - 1] as int - '0' as int)
  }

  /** Python's `str(n)` for a natural number: decimal digits, no leading zero. */
  function NatToString(n: nat): (r: string)
    ensures |r| >= 1 && AllDigits(r)
    ensures r[0] == '0' ==> n == 0
  {
    if n < 10 then [DigitChar(n)] else NatToString(n / 10) + [DigitChar(n % 10)]
  }

  /** `int(str(n)) == n`. */
  lemma {:induction false} NatToStringRoundTrip(n: nat)
    ensures DigitsValue(NatToString(n)) == n
  {
    if n >= 10 {
      var s := NatToString(n);
      assert s[..|s| - 1] == NatToString(n / 10);
      NatToStringRoundTrip(n / 10);
    }
  }

  /** The maximal run of digits `s` starts with. */
  function LeadingDigits(s: string): (r: string)
    ensures |r| <= |s| && AllDigits(r)
  {
    if |s| > 0 && IsDigit(s[0]) then [s[0]] + LeadingDigits(s[1..]) else ""
  }

  /** `re.search(r'(\d+)', s).group(1)`: the first maximal run of digits in
      `s`, or "" when `s` holds no digit. */
  function FirstDigitRun(s: string): (r: string)
    ensures AllDigits(r)
  {
    if |s| == 0 then ""
    else if IsDigit(s[0]) then LeadingDigits(s)
    else FirstDigitRun(s[1..])
  }

  /** A run of digits followed by a non-digit (or by nothing) is what
      `LeadingDigits` takes. */
  lemma {:induction false} LeadingDigitsOf(ds: string, post: string)
    requires AllDigits(ds)
    requires post == "" || !IsDigit(post[0])
    ensures LeadingDigits(ds + post) == ds
    decreases |ds|
  {
    if |ds| == 0 {
      assert ds + post == post;
    } else {
      assert (ds + post)[1..] == ds[1..] + post;
      LeadingDigitsOf(ds[1..], post);
      assert ds == [ds[0]] + ds[1..];
    }
  }

  /** The first run of digits after a digit-free prefix is the run itself. */
  lemma {:induction false} FirstDigitRunOf(pre: string, ds: string, post: string)
    requires forall i :: 0 <= i < |pre| ==> !IsDigit(pre[i])
    requires ds != "" && AllDigits(ds)
    requires post == "" || !IsDigit(post[0])
    ensures FirstDigitRun(pre + ds + post) == ds
    decreases |pre|
  {
    if |pre| == 0 {
      assert pre + ds + post == ds + post;
      LeadingDigitsOf(ds, post);
    } else {
      assert (pre + ds + post)[1..] == pre[1..] + ds + post;
      FirstDigitRunOf(pre[1..], ds, post);
    }
  }

  /** There is no run of digits exactly when there is no digit. */
  lemma {:induction false} FirstDigitRunEmpty(s: string)
    ensures FirstDigitRun(s) == "" <==> forall i :: 0 <= i < |s| ==> !IsDigit(s[i])
    decreases |s|
  {
    if |s| > 0 && !IsDigit(s[0]) {
      FirstDigitRunEmpty(s[1..]);
      assert forall i :: 1 <= i < |s| ==> s[i] == s[1..][i - 1];
    }
  }

  /** Python's `str(n)` for any integer. */
  function IntToString(n: int): string {
    if n < 0 then "-" + NatToString(-n) else NatToString(n)
  }
}
