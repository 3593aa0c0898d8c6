/** The JavaScript string operations the application relies on (`trim`,
    `replace(/\s+/g, ' ')`, `slice`, `join`, `split`, `toLowerCase`,
    `includes`, `startsWith`, `endsWith`, number-to-string), written out over
    `seq<char>`. Whitespace is the ASCII part of the `\s` class. */
module Text {
  import opened Wrappers

  /** Space, or one of tab, line feed, vertical tab, form feed and carriage
      return (the code points 9 to 13). */
  predicate IsSpace(c: char) {
    c == ' ' || '\t' <= c <= '\r'
  }

  predicate AllSpace(s: string) {
    forall i :: 0 <= i < |s| ==> IsSpace(s[i])
  }

  /** No two adjacent whitespace characters. */
  predicate NoDoubleSpace(s: string) {
    forall i :: 0 <= i < |s| - 1 ==> !(IsSpace(s[i]) && IsSpace(s[i + 1]))
  }

  /** Every whitespace character is a plain space. */
  predicate OnlyPlainSpaces(s: string) {
    forall i :: 0 <= i < |s| ==> IsSpace(s[i]) ==> s[i] == ' '
  }

  predicate NoLeadingSpace(s: string) {
    s == [] || !IsSpace(s[0])
  }

  predicate NoTrailingSpace(s: string) {
    s == [] || !IsSpace(s[|s| - 1])
  }

  /** Number of whitespace characters at the start of `s`. */
  function LeadingSpaces(s: string): (n: nat)
    ensures n <= |s|
    ensures forall i :: 0 <= i < n ==> IsSpace(s[i])
    ensures n < |s| ==> !IsSpace(s[n])
    decreases |s|
  {
    if s != [] && IsSpace(s[0]) then
      var m := LeadingSpaces(s[1..]);
      assert forall i :: 1 <= i <= 1 + m && i < |s| ==> s[i] == s[1..][i - 1];
      1 + m
    else 0
  }

  /** Number of whitespace characters at the end of `s`. */
  function TrailingSpaces(s: string): (n: nat)
    ensures n <= |s|
    ensures forall i :: |s| - n <= i < |s| ==> IsSpace(s[i])
    ensures n < |s| ==> !IsSpace(s[|s| - n - 1])
    decreases |s|
  {
    if s != [] && IsSpace(s[|s| - 1]) then
      var p := s[..|s| - 1];
      var m := TrailingSpaces(p);
      assert forall i :: 0 <= i < |p| ==> s[i] == p[i];
      1 + m
    else 0
  }

  /** `s.trimStart()`: `s` without its leading whitespace. */
  function TrimStart(s: string): (r: string)
    ensures |r| <= |s|
    ensures NoLeadingSpace(r)
  {
    s[LeadingSpaces(s)..]
  }

  /** `s.trimEnd()`: `s` without its trailing whitespace. */
  function TrimEnd(s: string): (r: string)
    ensures |r| <= |s|
    ensures NoTrailingSpace(r)
  {
    s[..|s| - TrailingSpaces(s)]
  }

  /** `s.trim()`. */
  function Trim(s: string): (r: string)
    ensures |r| <= |s|
    ensures NoLeadingSpace(r) && NoTrailingSpace(r)
    ensures r == [] <==> AllSpace(s)
  {
    TrimEmptyIff(s);
    TrimEnd(TrimStart(s))
  }

  /** `trim` keeps one contiguous slice of the string: what follows the
      leading whitespace, up to the trailing whitespace. */
  lemma TrimIsSlice(s: string)
    ensures LeadingSpaces(s) + |Trim(s)| <= |s| && Trim(s) == s[LeadingSpaces(s)..LeadingSpaces(s) + |Trim(s)|]
  {
    var t := TrimStart(s);
    PrefixOfSuffix(s, t, TrimEnd(t));
  }

  /** A prefix of a suffix is a middle slice. */
  lemma PrefixOfSuffix<T>(s: seq<T>, t: seq<T>, r: seq<T>)
    requires |t| <= |s| && t == s[|s| - |t|..]
    requires |r| <= |t| && r == t[..|r|]
    ensures |s| - |t| + |r| <= |s| && r == s[|s| - |t|..|s| - |t| + |r|]
  {
  }

  /** `trim` leaves nothing exactly when the string is all whitespace. */
  lemma TrimEmptyIff(s: string)
    ensures TrimEnd(TrimStart(s)) == [] <==> AllSpace(s)
  {
    var n := LeadingSpaces(s);
    var t := TrimStart(s);
    if TrimEnd(t) == [] {
    } else {
      assert !IsSpace(s[n]);
    }
  }

  /** Trimming keeps a prefix that neither starts nor ends with whitespace. */
  lemma TrimKeepsPrefix(s: string, p: string)
    requires StartsWith(s, p) && p != [] && !IsSpace(p[0]) && !IsSpace(p[|p| - 1])
    ensures StartsWith(Trim(s), p)
  {
    assert s[0] == p[0] && s[|p| - 1] == p[|p| - 1];
    assert LeadingSpaces(s) == 0;
    assert TrimStart(s) == s;
    assert |p| <= |s| - TrailingSpaces(s);
    PrefixOfPrefix(s, |s| - TrailingSpaces(s), |p|);
  }

  /** A prefix of a prefix is a prefix. */
  lemma PrefixOfPrefix<T>(s: seq<T>, k: nat, j: nat)
    requires j <= k <= |s|
    ensures s[..k][..j] == s[..j]
  {
  }

  /** Trimming a trimmed string changes nothing. */
  lemma TrimIdempotent(s: string)
    ensures Trim(Trim(s)) == Trim(s)
  {
    var t := Trim(s);
    assert TrimStart(t) == t;
    assert TrimEnd(t) == t;
  }

  /** `s.replace(/\s+/g, ' ')`: every maximal run of whitespace becomes one space. */
  function Collapse(s: string): (r: string)
    ensures |r| <= |s|
    ensures r == [] <==> s == []
    ensures NoDoubleSpace(r) && OnlyPlainSpaces(r)
    ensures s != [] ==> (IsSpace(r[0]) <==> IsSpace(s[0]))
    ensures s != [] ==> (IsSpace(r[|r| - 1]) <==> IsSpace(s[|s| - 1]))
    decreases |s|
  {
    if s == [] then []
    else if IsSpace(s[0]) then
      var t := TrimStart(s);
      assert |t| < |s|;
      [' '] + Collapse(t)
    else
      [s[0]] + Collapse(s[1..])
  }

  /** `text.replace(/\s+/g, ' ').trim()`: the `cleanText` of the scraper. */
  function CleanText(s: string): (r: string)
    ensures |r| <= |s|
    ensures NoLeadingSpace(r) && NoTrailingSpace(r)
    ensures NoDoubleSpace(r) && OnlyPlainSpaces(r)
    ensures r == [] <==> AllSpace(s)
  {
    CollapseBlank(s);
    CollapseTrimShape(s);
    Trim(Collapse(s))
  }

  lemma CollapseTrimShape(s: string)
    ensures NoDoubleSpace(Trim(Collapse(s))) && OnlyPlainSpaces(Trim(Collapse(s)))
  {
    TrimKeepsShape(Collapse(s));
  }

  /** Trimming a string keeps its whitespace shape. */
  lemma TrimKeepsShape(c: string)
    requires NoDoubleSpace(c) && OnlyPlainSpaces(c)
    ensures NoDoubleSpace(Trim(c)) && OnlyPlainSpaces(Trim(c))
  {
    TrimIsSlice(c);
    SliceKeepsShape(c, Trim(c), LeadingSpaces(c));
  }

  /** A string is all whitespace exactly when its collapsed form is. */
  lemma CollapseBlank(s: string)
    ensures AllSpace(Collapse(s)) <==> AllSpace(s)
  {
    if s != [] && IsSpace(s[0]) {
      var t := TrimStart(s);
      assert Collapse(s) == [' '] + Collapse(t);
      if t == [] {
        assert s[..|s|] == s;
      } else {
        assert s[|s| - |t|] == t[0];
        assert Collapse(s)[1] == Collapse(t)[0];
      }
    } else if s != [] {
      assert Collapse(s)[0] == s[0];
    }
  }

  /** A contiguous piece of a string keeps its whitespace shape. */
  lemma SliceKeepsShape(s: string, r: string, k: nat)
    requires NoDoubleSpace(s) && OnlyPlainSpaces(s)
    requires k + |r| <= |s| && r == s[k..k + |r|]
    ensures NoDoubleSpace(r) && OnlyPlainSpaces(r)
  {
    forall i | 0 <= i < |r| ensures r[i] == s[k + i] { }
  }

  /** Collapsing twice is collapsing once. */
  lemma {:induction false} CollapseIdempotent(s: string)
    ensures Collapse(Collapse(s)) == Collapse(s)
    decreases |s|
  {
    if s != [] {
      if IsSpace(s[0]) {
        var t := TrimStart(s);
        CollapseIdempotent(t);
        var ct := Collapse(t);
        assert NoLeadingSpace(ct);
        assert TrimStart([' '] + ct) == ct by {
          assert ([' '] + ct)[1..] == ct;
        }
        assert Collapse([' '] + ct) == [' '] + Collapse(ct);
      } else {
        CollapseIdempotent(s[1..]);
        assert ([s[0]] + Collapse(s[1..]))[1..] == Collapse(s[1..]);
      }
    }
  }

  /** Leading whitespace is counted up to the first non-space character,
      whatever follows it. */
  lemma LeadingSpacesBefore(a: string, t: string)
    requires t != [] && !IsSpace(t[0])
    ensures LeadingSpaces(a + t) == LeadingSpaces(a)
  {
    var s := a + t;
    var n := LeadingSpaces(a);
    assert forall i :: 0 <= i < |a| ==> s[i] == a[i];
    assert !IsSpace(s[n]);
  }

  /** Collapsing works run by run: it splits at any non-space character. */
  lemma {:induction false} CollapseSplits(a: string, c: char, b: string)
    requires !IsSpace(c)
    ensures Collapse(a + ([c] + b)) == Collapse(a) + ([c] + Collapse(b))
    decreases |a|
  {
    if a == [] {
      assert a + ([c] + b) == [c] + b;
      ConsHeadTail(c, b);
    } else if IsSpace(a[0]) {
      CollapseSplits(TrimStart(a), c, b);
      CollapseSplitsAfterSpace(a, [c] + b, Collapse(b));
    } else {
      CollapseSplits(a[1..], c, b);
      CollapseSplitsAfterText(a, [c] + b, Collapse(b));
    }
  }

  /** The step of CollapseSplits past a leading whitespace run; `t` starts
      with the non-space character and `y` is what follows it, collapsed. */
  lemma CollapseSplitsAfterSpace(a: string, t: string, y: string)
    requires t != [] && !IsSpace(t[0]) && a != [] && IsSpace(a[0])
    requires Collapse(TrimStart(a) + t) == Collapse(TrimStart(a)) + ([t[0]] + y)
    ensures Collapse(a + t) == Collapse(a) + ([t[0]] + y)
  {
    var s := a + t;
    AppendHeadTail(a, t);
    LeadingSpacesBefore(a, t);
    SuffixOfAppend(a, t, LeadingSpaces(a));
    assert TrimStart(s) == TrimStart(a) + t;
    Substitute(Collapse(s), Collapse(a), Collapse(TrimStart(s)), [' '], Collapse(TrimStart(a)), [t[0]] + y);
  }

  /** The step of CollapseSplits past a leading non-space character. */
  lemma CollapseSplitsAfterText(a: string, t: string, y: string)
    requires t != [] && !IsSpace(t[0]) && a != [] && !IsSpace(a[0])
    requires Collapse(a[1..] + t) == Collapse(a[1..]) + ([t[0]] + y)
    ensures Collapse(a + t) == Collapse(a) + ([t[0]] + y)
  {
    var s := a + t;
    AppendHeadTail(a, t);
    Substitute(Collapse(s), Collapse(a), Collapse(s[1..]), [a[0]], Collapse(a[1..]), [t[0]] + y);
  }

  /** A suffix of a concatenation that starts inside its left part. */
  lemma SuffixOfAppend<T>(a: seq<T>, t: seq<T>, n: nat)
    requires n <= |a|
    ensures (a + t)[n..] == a[n..] + t
  {
  }

  /** Putting back a common head: from `whole == p + rest`,
      `rest == x + q` and `part == p + x` follows `whole == part + q`. */
  lemma Substitute<T>(whole: seq<T>, part: seq<T>, rest: seq<T>, p: seq<T>, x: seq<T>, q: seq<T>)
    requires whole == p + rest && rest == x + q && part == p + x
    ensures whole == part + q
  {
  }

  /** A non-empty run of whitespace collapses to one plain space. */
  lemma CollapseBlankRun(s: string)
    requires s != [] && AllSpace(s)
    ensures Collapse(s) == " "
  {
    assert LeadingSpaces(s) == |s|;
    assert TrimStart(s) == [];
  }

  /** The non-space characters of a string, in order. */
  function NonSpace(s: string): (r: string)
    ensures |r| <= |s| && !(exists i :: 0 <= i < |r| && IsSpace(r[i]))
    decreases |s|
  {
    if s == [] then []
    else (if IsSpace(s[0]) then [] else [s[0]]) + NonSpace(s[1..])
  }

  lemma {:induction false} NonSpaceAppend(a: string, b: string)
    ensures NonSpace(a + b) == NonSpace(a) + NonSpace(b)
    decreases |a|
  {
    if a == [] {
      assert a + b == b;
    } else {
      AppendHeadTail(a, b);
      NonSpaceAppend(a[1..], b);
    }
  }

  lemma {:induction false} NonSpaceOfBlank(s: string)
    requires AllSpace(s)
    ensures NonSpace(s) == []
    decreases |s|
  {
    if s != [] {
      NonSpaceOfBlank(s[1..]);
    }
  }

  /** `trim` removes a blank head and a blank tail and nothing else. */
  lemma TrimParts(s: string) returns (lead: string, rest: string)
    ensures s == lead + Trim(s) + rest && AllSpace(lead) && AllSpace(rest)
  {
    var t := TrimStart(s);
    var n, k := LeadingSpaces(s), |t| - TrailingSpaces(t);
    lead, rest := s[..n], t[k..];
    LeadIsBlank(s);
    TailIsBlank(t);
    CutAt(s, n);
    CutAt(t, k);
    Regroup(s, lead, t, TrimEnd(t), rest);
  }

  lemma LeadIsBlank(s: string)
    ensures AllSpace(s[..LeadingSpaces(s)])
  {
  }

  lemma TailIsBlank(t: string)
    ensures AllSpace(t[|t| - TrailingSpaces(t)..])
  {
    var k := |t| - TrailingSpaces(t);
    assert forall i :: 0 <= i < |t| - k ==> t[k..][i] == t[k + i];
  }

  lemma CutAt<T>(s: seq<T>, n: nat)
    requires n <= |s|
    ensures s == s[..n] + s[n..]
  {
  }

  lemma Regroup<T>(s: seq<T>, a: seq<T>, t: seq<T>, r: seq<T>, b: seq<T>)
    requires s == a + t && t == r + b
    ensures s == a + r + b
  {
  }

  /** Trimming drops whitespace only. */
  lemma TrimKeepsText(s: string)
    ensures NonSpace(Trim(s)) == NonSpace(s)
  {
    var r := Trim(s);
    var lead, rest := TrimParts(s);
    NonSpaceOfBlank(lead);
    NonSpaceOfBlank(rest);
    NonSpaceAppend(lead + r, rest);
    NonSpaceAppend(lead, r);
  }

  /** Collapsing drops and replaces whitespace only. */
  lemma {:induction false} CollapseKeepsText(s: string)
    ensures NonSpace(Collapse(s)) == NonSpace(s)
    decreases |s|
  {
    if s != [] {
      if IsSpace(s[0]) {
        var n := LeadingSpaces(s);
        var t := TrimStart(s);
        CollapseKeepsText(t);
        assert s == s[..n] + t;
        NonSpaceOfBlank(s[..n]);
        NonSpaceAppend(s[..n], t);
        NonSpaceAppend([' '], Collapse(t));
      } else {
        CollapseKeepsText(s[1..]);
        NonSpaceAppend([s[0]], Collapse(s[1..]));
        ConsHeadTail(s[0], Collapse(s[1..]));
      }
    }
  }

  /** `cleanText` keeps every non-space character, in order. */
  lemma CleanTextKeepsText(s: string)
    ensures NonSpace(CleanText(s)) == NonSpace(s)
  {
    TrimKeepsText(Collapse(s));
    CollapseKeepsText(s);
  }

  /** `s.slice(0, n)` for `n >= 0`. */
  function Take(s: string, n: nat): (r: string)
    ensures |r| == if |s| <= n then |s| else n
    ensures r == s[..|r|]
  {
    if |s| <= n then s else s[..n]
  }

  /** A prefix of a cleaned string is still free of leading and doubled whitespace. */
  lemma TakeKeepsShape(s: string, n: nat)
    requires NoLeadingSpace(s) && NoDoubleSpace(s) && OnlyPlainSpaces(s)
    ensures NoLeadingSpace(Take(s, n)) && NoDoubleSpace(Take(s, n)) && OnlyPlainSpaces(Take(s, n))
    ensures |s| <= n ==> Take(s, n) == s
    ensures n > 0 ==> (Take(s, n) == [] <==> s == [])
  {
    var r := Take(s, n);
    forall i | 0 <= i < |r| ensures r[i] == s[i] { }
  }

  /** The head and the tail of a concatenation whose left part is not empty.
      Stated for any element type so that the solver need not look inside
      the elements. */
  lemma AppendHeadTail<T>(a: seq<T>, b: seq<T>)
    requires a != []
    ensures (a + b)[0] == a[0] && (a + b)[1..] == a[1..] + b
  {
  }

  /** The two halves of a concatenation are recovered by slicing it. */
  lemma AppendSlices<T>(a: seq<T>, b: seq<T>)
    ensures (a + b)[..|a|] == a && (a + b)[|a|..] == b
  {
  }

  /** The head and the tail of a sequence built with one element in front. */
  lemma ConsHeadTail<T>(x: T, rest: seq<T>)
    ensures ([x] + rest)[0] == x && ([x] + rest)[1..] == rest && |[x] + rest| == |rest| + 1
  {
  }

  /** `parts.join(sep)`. */
  function Join(parts: seq<string>, sep: string): (r: string)
    decreases |parts|
  {
    if |parts| == 0 then ""
    else if |parts| == 1 then parts[0]
    else parts[0] + sep + Join(parts[1..], sep)
  }

  function TotalLength(parts: seq<string>): nat {
    if parts == [] then 0 else |parts[0]| + TotalLength(parts[1..])
  }

  /** The joined string holds every part plus one separator between each neighbouring pair. */
  lemma {:induction false} JoinLength(parts: seq<string>, sep: string)
    ensures |Join(parts, sep)| == TotalLength(parts) + (if |parts| == 0 then 0 else (|parts| - 1) * |sep|)
    decreases |parts|
  {
    if |parts| > 1 {
      JoinLength(parts[1..], sep);
      assert TotalLength(parts[1..][1..]) == TotalLength(parts[2..]);
    } else if |parts| == 1 {
      assert TotalLength(parts[1..]) == 0;
    }
  }

  function Lower(c: char): char {
    if 'A' <= c <= 'Z' then (c as int + 32) as char else c
  }

  /** `s.toLowerCase()` on ASCII letters. */
  function ToLower(s: string): (r: string)
    ensures |r| == |s|
    ensures forall i :: 0 <= i < |s| ==> r[i] == Lower(s[i])
  {
    seq(|s|, i requires 0 <= i < |s| => Lower(s[i]))
  }

  /** Lower-casing twice is lower-casing once. */
  lemma ToLowerIdempotent(s: string)
    ensures ToLower(ToLower(s)) == ToLower(s)
  {
    var l := ToLower(s);
    forall i | 0 <= i < |l| ensures ToLower(l)[i] == l[i] {
      assert Lower(Lower(s[i])) == Lower(s[i]);
    }
  }

  predicate StartsWith(s: string, p: string) {
    |p| <= |s| && s[..|p|] == p
  }

  /** A string starts with any string it is built from by appending. */
  lemma StartsWithAppend(a: string, b: string)
    ensures StartsWith(a + b, a)
  {
    AppendSlices(a, b);
  }

  predicate EndsWith(s: string, p: string) {
    |p| <= |s| && s[|s| - |p|..] == p
  }

  /** `p` occurs in `s` at position `i`. */
  predicate MatchAt(s: string, p: string, i: int) {
    0 <= i && i + |p| <= |s| && s[i..i + |p|] == p
  }

  /** `s.includes(p)`. */
  predicate Contains(s: string, p: string) {
    exists i | 0 <= i <= |s| - |p| :: MatchAt(s, p, i)
  }

  /** Case-insensitive `includes`, as a regular expression with the `i` flag; `p` is lower case. */
  predicate ContainsCi(s: string, p: string) {
    Contains(ToLower(s), p)
  }

  /** A string contains whatever is spliced into it. */
  lemma ContainsMiddle(a: string, p: string, b: string)
    ensures Contains(a + p + b, p)
  {
    assert (a + p + b)[|a|..|a| + |p|] == p;
    assert MatchAt(a + p + b, p, |a|);
  }

  /** What a string contains, a longer string ending in it contains too. */
  lemma ContainsAfter(a: string, b: string, p: string)
    requires Contains(b, p)
    ensures Contains(a + b, p)
  {
    var i :| 0 <= i <= |b| - |p| && MatchAt(b, p, i);
    assert (a + b)[|a| + i..|a| + i + |p|] == b[i..i + |p|];
    assert MatchAt(a + b, p, |a| + i);
  }

  /** Position of the first occurrence of `p` in `s`, scanning from `from`. */
  function IndexOf(s: string, p: string, from: nat := 0): (r: Option<nat>)
    ensures r.Some? ==> from <= r.value && MatchAt(s, p, r.value)
    ensures r.Some? ==> forall j :: from <= j < r.value ==> !MatchAt(s, p, j)
    ensures r.None? ==> forall j :: from <= j ==> !MatchAt(s, p, j)
    decreases |s| - from
  {
    if from + |p| > |s| then None
    else if s[from..from + |p|] == p then Some(from)
    else IndexOf(s, p, from + 1)
  }

  /** `s.replace(p, "")` with a string pattern: only the first occurrence is removed. */
  function RemoveFirst(s: string, p: string): (r: string)
    ensures |r| <= |s|
    ensures !Contains(s, p) ==> r == s
  {
    match IndexOf(s, p)
    case None => s
    case Some(i) => s[..i] + s[i + |p|..]
  }

  /** Position of the first `c` in `s`. */
  function IndexOfChar(s: string, c: char): (r: Option<nat>)
    ensures r.Some? ==> r.value < |s| && s[r.value] == c && c !in s[..r.value]
    ensures r.None? ==> c !in s
  {
    if s == [] then None
    else if s[0] == c then Some(0)
    else match IndexOfChar(s[1..], c)
      case None => None
      case Some(i) => Some(i + 1)
  }

  /** `s.split(d)` for a one-character separator. */
  function Split(s: string, d: char): (r: seq<string>)
    ensures |r| >= 1
    ensures forall i :: 0 <= i < |r| ==> d !in r[i]
    decreases |s|
  {
    match IndexOfChar(s, d)
    case None => [s]
    case Some(i) => [s[..i]] + Split(s[i + 1..], d)
  }

  /** Joining the pieces of a split with the separator gives back the string. */
  lemma {:induction false} SplitJoin(s: string, d: char)
    ensures Join(Split(s, d), [d]) == s
    decreases |s|
  {
    match IndexOfChar(s, d)
    case None =>
    case Some(i) =>
      SplitJoin(s[i + 1..], d);
      SplitJoinStep(s, d, i);
  }

  /** The step of SplitJoin past the first separator, at `i`. */
  lemma SplitJoinStep(s: string, d: char, i: nat)
    requires IndexOfChar(s, d) == Some(i)
    requires Join(Split(s[i + 1..], d), [d]) == s[i + 1..]
    ensures Join(Split(s, d), [d]) == s
  {
    var head, tail := s[..i], s[i + 1..];
    var rest := Split(tail, d);
    assert Split(s, d) == [head] + rest;
    JoinCons(head, rest, [d]);
    AroundIndex(s, i);
  }

  /** A sequence is what precedes an index, the element there, and what follows. */
  lemma AroundIndex<T>(s: seq<T>, i: nat)
    requires i < |s|
    ensures s == s[..i] + [s[i]] + s[i + 1..]
  {
  }

  /** Joining a list with a first part in front of a non-empty rest. */
  lemma JoinCons(head: string, rest: seq<string>, sep: string)
    requires rest != []
    ensures Join([head] + rest, sep) == head + sep + Join(rest, sep)
  {
    ConsHeadTail(head, rest);
  }

  /** The first separator of a string is found where it is. */
  lemma {:induction false} IndexOfCharAt(s: string, d: char, j: nat)
    requires j < |s| && s[j] == d && d !in s[..j]
    ensures IndexOfChar(s, d) == Some(j)
  {
    if j > 0 {
      assert s[0] == s[..j][0];
      assert s[1..][..j - 1] == s[..j][1..];
      IndexOfCharAt(s[1..], d, j - 1);
    }
  }

  /** A string that starts with a separator-free piece and the separator splits there. */
  lemma SplitAt(a: string, d: char, b: string)
    requires d !in a
    ensures Split(a + [d] + b, d) == [a] + Split(b, d)
  {
    var s := a + [d] + b;
    assert s[..|a|] == a && s[|a| + 1..] == b;
    IndexOfCharAt(s, d, |a|);
  }

  /** A separator-free string is one piece. */
  lemma SplitNone(a: string, d: char)
    requires d !in a
    ensures Split(a, d) == [a]
  {
  }

  function Digit(n: nat): char
    requires n < 10
  {
    ('0' as int + n) as char
  }

  predicate IsDigit(c: char) {
    '0' <= c <= '9'
  }

  /** `String(n)` for a natural number: its decimal digits. */
  function NatToString(n: nat): (r: string)
    ensures |r| >= 1
    ensures forall i :: 0 <= i < |r| ==> IsDigit(r[i])
  {
    if n < 10 then [Digit(n)] else NatToString(n / 10) + [Digit(n % 10)]
  }

  function DigitValue(c: char): nat
    requires IsDigit(c)
  {
    c as int - '0' as int
  }

  /** The value of a string of decimal digits. */
  function DigitsValue(s: string): nat
    requires forall i :: 0 <= i < |s| ==> IsDigit(s[i])
  {
    if s == [] then 0 else 10 * DigitsValue(s[..|s| - 1]) + DigitValue(s[|s| - 1])
  }

  /** Printing a number and reading it back gives the number. */
  lemma {:induction false} NatToStringRoundTrip(n: nat)
    ensures DigitsValue(NatToString(n)) == n
  {
    if n >= 10 {
      NatToStringRoundTrip(n / 10);
      var p := NatToString(n / 10);
      var d := Digit(n % 10);
      AppendSlices(p, [d]);
      assert DigitValue(d) == n % 10;
      assert DigitsValue(p + [d]) == 10 * DigitsValue(p) + DigitValue(d);
    }
  }

  /** A number has at most one digit more than a tenth of it has units. */
  lemma {:induction false} NatToStringShort(n: nat)
    ensures |NatToString(n)| <= 1 + n / 10
  {
    if n >= 10 {
      NatToStringShort(n / 10);
    }
  }

  /** Different numbers print differently. */
  lemma NatToStringInjective(m: nat, n: nat)
    requires NatToString(m) == NatToString(n)
    ensures m == n
  {
    NatToStringRoundTrip(m);
    NatToStringRoundTrip(n);
  }
}
