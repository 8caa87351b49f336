/** String operations of Python's `str` that the stages use, on `seq<char>`.
    Case mapping covers ASCII letters only; whitespace is the full set `str.strip()` removes. */
module Text {

  /** Characters removed by Python's `str.strip()` with no argument: the C0 controls TAB to CR
      and FS to US, the space, NEL, NO-BREAK SPACE and the Unicode space separators. */
  predicate IsSpace(c: char) {
    || c == ' ' || '\t' <= c <= '\r' || '\U{1C}' <= c <= '\U{1F}'
    || c == '\U{85}' || c == '\U{A0}' || c == '\U{1680}' || '\U{2000}' <= c <= '\U{200A}'
    || c == '\U{2028}' || c == '\U{2029}' || c == '\U{202F}' || c == '\U{205F}' || c == '\U{3000}'
  }

  function TrimLeft(s: string): (r: string)
    ensures |r| <= |s| && r == s[|s| - |r|..]
    ensures r == [] || !IsSpace(r[0])
    ensures forall i :: 0 <= i < |s| - |r| ==> IsSpace(s[i])
  {
    if s == [] || !IsSpace(s[0]) then s else TrimLeft(s[1..])
  }

  function TrimRight(s: string): (r: string)
    ensures |r| <= |s| && r == s[..|r|]
    ensures r == [] || !IsSpace(r[|r| - 1])
    ensures forall i :: |r| <= i < |s| ==> IsSpace(s[i])
  {
    if s == [] || !IsSpace(s[|s| - 1]) then s else TrimRight(s[..|s| - 1])
  }

  /** Python `s.strip()`. */
  function Strip(s: string): (r: string)
    ensures |r| <= |s|
    ensures r == [] || (!IsSpace(r[0]) && !IsSpace(r[|r| - 1]))
  {
    TrimRight(TrimLeft(s))
  }

  /** A string of whitespace only strips to the empty string, and only such a string does. */
  lemma StripEmptyIff(s: string)
    ensures Strip(s) == [] <==> forall i :: 0 <= i < |s| ==> IsSpace(s[i])
  {
    var l := TrimLeft(s);
    if Strip(s) == [] {
      assert l == [];
    } else {
      assert !IsSpace(l[0]);
      assert l[0] == s[|s| - |l|];
    }
  }

  /** Trailing whitespace does not survive TrimRight. */
  lemma {:induction false} TrimRightSpaces(p: string, t: string)
    requires forall i :: 0 <= i < |t| ==> IsSpace(t[i])
    ensures TrimRight(p + t) == TrimRight(p)
    decreases |t|
  {
    if t != [] {
      var pt := p + t;
      assert pt[|pt| - 1] == t[|t| - 1];
      assert pt[..|pt| - 1] == p + t[..|t| - 1];
      TrimRightSpaces(p, t[..|t| - 1]);
    } else {
      assert p + t == p;
    }
  }

  function LowerChar(c: char): char {
    if 'A' <= c <= 'Z' then (c as int + 32) as char else c
  }

  function UpperChar(c: char): char {
    if 'a' <= c <= 'z' then (c as int - 32) as char else c
  }

  /** Python `s.lower()` on ASCII letters. */
  function Lower(s: string): (r: string)
    ensures |r| == |s| && forall i :: 0 <= i < |s| ==> r[i] == LowerChar(s[i])
  {
    seq(|s|, i requires 0 <= i < |s| => LowerChar(s[i]))
  }

  /** Python `s.upper()` on ASCII letters. */
  function Upper(s: string): (r: string)
    ensures |r| == |s| && forall i :: 0 <= i < |s| ==> r[i] == UpperChar(s[i])
  {
    seq(|s|, i requires 0 <= i < |s| => UpperChar(s[i]))
  }

  predicate StartsWith(s: string, prefix: string) {
    |prefix| <= |s| && s[..|prefix|] == prefix
  }

  /** A prefix of a string is a prefix of anything appended to it. */
  lemma StartsWithAppend(s: string, prefix: string, t: string)
    requires StartsWith(s, prefix)
    ensures StartsWith(s + t, prefix)
  {
    assert (s + t)[..|prefix|] == s[..|prefix|];
  }

  predicate EndsWith(s: string, suffix: string) {
    |suffix| <= |s| && s[|s| - |suffix|..] == suffix
  }

  predicate OccursAt(s: string, sub: string, i: int) {
    0 <= i && i + |sub| <= |s| && s[i..i + |sub|] == sub
  }

  /** Python `sub in s`. */
  predicate Contains(s: string, sub: string) {
    exists i :: 0 <= i <= |s| - |sub| && OccursAt(s, sub, i)
  }

  /** Python slice `s[:n]` for n >= 0. */
  function Take(s: string, n: nat): (r: string)
    ensures |r| <= n && |r| <= |s| && r == s[..|r|]
    ensures |s| <= n ==> r == s
  {
    if |s| <= n then s else s[..n]
  }

  /** Python slice `s[-n:]` for n > 0: the last n characters, or all of a shorter string. */
  function TakeLast(s: string, n: nat): (r: string)
    ensures |r| <= n && |r| <= |s| && r == s[|s| - |r|..]
    ensures |s| <= n ==> r == s
  {
    if |s| <= n then s else s[|s| - n..]
  }

  /** Python slice `s[n:]` for n >= 0. */
  function Drop(s: string, n: nat): (r: string)
    ensures |r| == if |s| <= n then 0 else |s| - n
  {
    if |s| <= n then [] else s[n..]
  }

  /** Python `s.split(sep)` for a one-character separator. */
  function Split(s: string, sep: char): (r: seq<string>)
    ensures |r| >= 1
    ensures forall k :: 0 <= k < |r| ==> sep !in r[k]
  {
    if sep !in s then [s]
    else
      var i := IndexOf(s, sep);
      [s[..i]] + Split(s[i + 1..], sep)
  }

  function IndexOf(s: string, c: char): (i: nat)
    requires c in s
    ensures i < |s| && s[i] == c && c !in s[..i]
  {
    if s[0] == c then 0 else 1 + IndexOf(s[1..], c)
  }

  /** Split cuts at the first separator. */
  lemma SplitAtFirst(s: string, sep: char, i: nat)
    requires i < |s| && s[i] == sep && sep !in s[..i]
    ensures Split(s, sep) == [s[..i]] + Split(s[i + 1..], sep)
  {
    IndexOfFirst(s, sep, i);
  }

  /** The last piece of Split is what follows the last separator. */
  lemma {:induction false} SplitLast(p: string, sep: char, t: string)
    requires sep !in t
    ensures var r := Split(p + [sep] + t, sep); r[|r| - 1] == t
    decreases |p|
  {
    var s := p + [sep] + t;
    var i := if sep in p then IndexOf(p, sep) else |p|;
    assert s[..i] == p[..i] && s[i] == sep;
    SplitAtFirst(s, sep, i);
    if sep in p {
      assert s[i + 1..] == p[i + 1..] + [sep] + t;
      SplitLast(p[i + 1..], sep, t);
    } else {
      assert s[i + 1..] == t;
    }
  }

  /** IndexOf finds the first occurrence. */
  lemma IndexOfFirst(s: string, c: char, i: nat)
    requires i < |s| && s[i] == c && c !in s[..i]
    ensures IndexOf(s, c) == i
    decreases i
  {
    if i > 0 {
      assert s[0] != c by {
        assert s[..i][0] == s[0];
      }
      assert s[1..][..i - 1] == s[..i][1..];
      IndexOfFirst(s[1..], c, i - 1);
    }
  }

  /** The pieces of Split, joined back with the separator, give the original string. */
  lemma {:induction false} SplitJoin(s: string, sep: char)
    ensures Join([sep], Split(s, sep)) == s
  {
    if sep in s {
      var i := IndexOf(s, sep);
      SplitJoin(s[i + 1..], sep);
      var rest := Split(s[i + 1..], sep);
      assert Split(s, sep) == [s[..i]] + rest;
      JoinCons([sep], s[..i], rest);
      assert s == s[..i] + [sep] + s[i + 1..];
    }
  }

  /** Python `sep.join(parts)`. */
  function Join(sep: string, parts: seq<string>): string {
    if parts == [] then []
    else if |parts| == 1 then parts[0]
    else parts[0] + sep + Join(sep, parts[1..])
  }

  lemma JoinCons(sep: string, head: string, tail: seq<string>)
    requires tail != []
    ensures Join(sep, [head] + tail) == head + sep + Join(sep, tail)
  {
    assert ([head] + tail)[1..] == tail;
  }

  /** Five parts joined: each separator between two neighbours. */
  lemma JoinFive(sep: string, a: string, b: string, c: string, d: string, e: string)
    ensures Join(sep, [a, b, c, d, e]) == a + sep + b + sep + c + sep + d + sep + e
  {
    var ps := [a, b, c, d, e];
    assert ps[1..][1..][1..][1..] == [e];
    assert Join(sep, ps[1..][1..][1..]) == d + sep + e;
    assert Join(sep, ps[1..][1..]) == c + sep + (d + sep + e);
    assert Join(sep, ps[1..]) == b + sep + (c + sep + (d + sep + e));
  }

  /** A joined text starts with its first part. */
  lemma JoinStartsWith(sep: string, parts: seq<string>)
    requires parts != []
    ensures StartsWith(Join(sep, parts), parts[0])
  {
    if |parts| > 1 {
      assert Join(sep, parts) == parts[0] + (sep + Join(sep, parts[1..]));
    }
  }

  /** ... and ends with its last one. */
  lemma {:induction false} JoinEndsWith(sep: string, parts: seq<string>)
    requires parts != []
    ensures EndsWith(Join(sep, parts), parts[|parts| - 1])
    decreases |parts|
  {
    if |parts| > 1 {
      var tail := parts[1..];
      JoinEndsWith(sep, tail);
      var j := Join(sep, parts);
      var last := parts[|parts| - 1];
      assert tail[|tail| - 1] == last;
      assert j == parts[0] + sep + Join(sep, tail);
      var jt := Join(sep, tail);
      assert jt[|jt| - |last|..] == last;
      assert j[|j| - |last|..] == jt[|jt| - |last|..];
    }
  }

  /** Python `s.replace(sub, "")`: occurrences are removed left to right without overlap. */
  function RemoveAll(s: string, sub: string): (r: string)
    requires sub != []
    ensures |r| <= |s|
    decreases |s|
  {
    if |s| < |sub| then s
    else if s[..|sub|] == sub then RemoveAll(s[|sub|..], sub)
    else [s[0]] + RemoveAll(s[1..], sub)
  }

  function DigitChar(d: nat): char
    requires d < 10
  {
    "0123456789"[d]
  }

  /** Python `str(n)` for a natural number: decimal digits, no leading zeros. */
  function NatToString(n: nat): (r: string)
    ensures |r| >= 1
    ensures forall i :: 0 <= i < |r| ==> '0' <= r[i] <= '9'
    ensures |r| > 1 ==> r[0] != '0'
  {
    if n < 10 then [DigitChar(n)] else NatToString(n / 10) + [DigitChar(n % 10)]
  }

  /** Python `str(i)` for an integer. */
  function IntToString(i: int): (r: string)
    ensures |r| >= 1
  {
    if i < 0 then "-" + NatToString(-i) else NatToString(i)
  }

  /** The words of `ks` that occur in `s`, in list order (a filter by `k in s`). */
  function WordsIn(s: string, ks: seq<string>): (found: seq<string>)
    ensures |found| <= |ks|
    ensures |found| == |ks| <==> forall i :: 0 <= i < |ks| ==> Contains(s, ks[i])
    decreases |ks|
  {
    if ks == [] then []
    else
      var rest := WordsIn(s, ks[..|ks| - 1]);
      if Contains(s, ks[|ks| - 1]) then rest + [ks[|ks| - 1]] else rest
  }

  /** The pieces one after the other (`"".join(pieces)` for strings). */
  function Flatten<T>(pieces: seq<seq<T>>): (r: seq<T>)
    ensures pieces == [] ==> r == []
  {
    if pieces == [] then [] else pieces[0] + Flatten(pieces[1..])
  }

  lemma {:induction false} FlattenAppend<T>(a: seq<seq<T>>, b: seq<seq<T>>)
    ensures Flatten(a + b) == Flatten(a) + Flatten(b)
    decreases |a|
  {
    if a == [] {
      assert a + b == b;
    } else {
      assert (a + b)[1..] == a[1..] + b;
      FlattenAppend(a[1..], b);
    }
  }

  predicate NoDuplicates<T(==)>(s: seq<T>) {
    forall i, j :: 0 <= i < j < |s| ==> s[i] != s[j]
  }

  /** `ys` is `xs` with some items left out and the order kept. */
  ghost predicate Subsequence<T>(ys: seq<T>, xs: seq<T>) {
    exists idx: seq<nat> ::
      && |idx| == |ys|
      && (forall j :: 0 <= j < |idx| ==> idx[j] < |xs| && ys[j] == xs[idx[j]])
      && (forall j, k :: 0 <= j < k < |idx| ==> idx[j] < idx[k])
  }

  /** A subsequence stays one when the whole grows by an item, with or without that item. */
  lemma SubsequenceSnoc<T>(ys: seq<T>, xs: seq<T>, x: T)
    requires Subsequence(ys, xs)
    ensures Subsequence(ys, xs + [x]) && Subsequence(ys + [x], xs + [x])
  {
    var idx: seq<nat> :| && |idx| == |ys|
                         && (forall j :: 0 <= j < |idx| ==> idx[j] < |xs| && ys[j] == xs[idx[j]])
                         && (forall j, k :: 0 <= j < k < |idx| ==> idx[j] < idx[k]);
    var whole := xs + [x];
    assert forall j :: 0 <= j < |idx| ==> idx[j] < |whole| && ys[j] == whole[idx[j]];
    var idx' := idx + [|xs|];
    var grown := ys + [x];
    assert forall j :: 0 <= j < |idx'| ==> idx'[j] < |whole| && grown[j] == whole[idx'[j]];
  }

  /** The words found are exactly those of the list that occur, in list order. */
  lemma {:induction false} WordsInSpec(s: string, ks: seq<string>)
    ensures forall k :: k in WordsIn(s, ks) <==> k in ks && Contains(s, k)
    ensures Subsequence(WordsIn(s, ks), ks)
    decreases |ks|
  {
    if ks != [] {
      var init := ks[..|ks| - 1];
      var last := ks[|ks| - 1];
      WordsInSpec(s, init);
      SubsequenceSnoc(WordsIn(s, init), init, last);
      assert ks == init + [last];
    } else {
      assert Subsequence([], ks) by {
        var idx: seq<nat> := [];
        assert |idx| == 0;
      }
    }
  }

  /** A subsequence of a prefix is a subsequence of the whole. */
  lemma SubsequenceOfPrefix<T>(ys: seq<T>, xs: seq<T>, n: nat)
    requires n <= |xs| && Subsequence(ys, xs[..n])
    ensures Subsequence(ys, xs)
  {
    var idx: seq<nat> :| && |idx| == |ys|
                         && (forall j :: 0 <= j < |idx| ==> idx[j] < |xs[..n]| && ys[j] == xs[..n][idx[j]])
                         && (forall j, k :: 0 <= j < k < |idx| ==> idx[j] < idx[k]);
    assert forall j :: 0 <= j < |idx| ==> idx[j] < |xs| && ys[j] == xs[idx[j]];
  }
}
