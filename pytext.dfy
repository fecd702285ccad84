/** Wrapper datatypes shared by every module: an optional value and a
    success-or-error outcome (the source's exceptions become Failure). */
module Outcomes {
  datatype Option<+T> = None | Some(value: T)

  datatype Result<+R, +E> = Success(value: R) | Failure(error: E)
}

/** Generic facts about where the pieces of a concatenation sit. Stated
    for any element type, they are proved once and used for sequences of
    document elements and canvas calls alike. */
module Sequences {
  /** Appending two single elements is appending the pair. */
  lemma AppendTwo<T>(s: seq<T>, x: T, y: T)
    ensures s + [x] + [y] == s + [x, y]
  {
  }

  /** Concatenation is associative. */
  lemma AppendAssoc<T>(a: seq<T>, b: seq<T>, c: seq<T>)
    ensures a + b + c == a + (b + c)
  {
  }

  /** A prefix in front of four concatenated pieces can be split off. */
  lemma PrefixOfFour<T>(p: seq<T>, a: seq<T>, b: seq<T>, c: seq<T>, d: seq<T>)
    ensures p + a + b + c + d == p + (a + b + c + d)
  {
  }

  /** Moving the first element of a sequence onto a prefix. */
  lemma MoveHead<T>(a: seq<T>, s: seq<T>)
    requires s != []
    ensures [s[0]] + s[1..] == s
    ensures a + [s[0]] + s[1..] == a + s
  {
  }

  /** Where the first three of four concatenated sections sit. */
  lemma Sections<T>(a: seq<T>, b: seq<T>, c: seq<T>, d: seq<T>)
    ensures var s := a + b + c + d;
      && |s| == |a| + |b| + |c| + |d|
      && (forall i :: 0 <= i < |a| ==> s[i] == a[i])
      && (forall i :: 0 <= i < |b| ==> s[|a| + i] == b[i])
      && (forall i :: 0 <= i < |c| ==> s[|a| + |b| + i] == c[i])
  {
  }

  /** Where a single element and the rest sit after a prefix. */
  lemma Tail<T>(head: seq<T>, x: T, rest: seq<T>)
    ensures var s := head + ([x] + rest);
      && s == head + [x] + rest
      && |s| == |head| + 1 + |rest|
      && s[|head|] == x
      && s[|head| + 1..] == rest
      && forall i :: |head| < i < |s| ==> s[i] == rest[i - |head| - 1]
  {
  }
}

/** The handful of Python `str` operations the application relies on,
    stated over `seq<char>`: `sep.join`, `s.split(sep)`, `s.strip()`,
    `s.isupper()` and `str(n)` for integers. */
module PyText {
  import opened Sequences

  /** `t` occurs in `s` as a contiguous slice (Python's `t in s`). */
  ghost predicate IsInfix(t: string, s: string) {
    exists k :: InfixAt(t, s, k)
  }

  /** `t` occurs in `s` starting at index `k`. */
  predicate InfixAt(t: string, s: string, k: int) {
    0 <= k <= |s| - |t| && s[k..k + |t|] == t
  }

  /** Where the three pieces of a concatenation sit. */
  lemma ConcatPieces(a: string, b: string, c: string)
    ensures StartsWith(a + b + c, a)
    ensures InfixAt(b, a + b + c, |a|)
    ensures IsInfix(b, a + b + c)
    ensures EndsWith(a + b + c, c)
  {
    var s := a + b + c;
    assert s[..|a|] == a;
    assert s[|a|..|a| + |b|] == b;
    assert s[|s| - |c|..] == c;
    assert InfixAt(b, s, |a|);
  }

  /** A piece nested in the middle of a five-part concatenation occurs in
      it, between its first and last parts. */
  lemma NestedPieces(a: string, b: string, c: string, d: string, e: string)
    ensures StartsWith(a + (b + c + d) + e, a)
    ensures InfixAt(c, a + (b + c + d) + e, |a| + |b|)
    ensures EndsWith(a + (b + c + d) + e, e)
  {
    var m := b + c + d;
    var s := a + m + e;
    ConcatPieces(a, m, e);
    assert m[|b|..|b| + |c|] == c;
    assert s[|a| + |b|..|a| + |b| + |c|] == m[|b|..|b| + |c|];
  }

  /** A piece nested in the last part of a middle section occurs in the
      whole concatenation. */
  lemma NestedInfix(a: string, h: string, n: string, p: string, x: string, q: string, f: string)
    ensures InfixAt(x, a + (h + n + (p + x + q)) + f, |a| + |h| + |n| + |p|)
  {
    var m := p + x + q;
    var body := h + n + m;
    var s := a + body + f;
    var k := |h| + |n| + |p|;
    assert m[|p|..|p| + |x|] == x;
    assert body[k..k + |x|] == m[|p|..|p| + |x|];
    assert s[|a| + k..|a| + k + |x|] == body[k..k + |x|];
  }

  /** An occurrence survives appending text on either side. */
  lemma InfixWiden(t: string, s: string, k: int, a: string, c: string)
    requires InfixAt(t, s, k)
    ensures InfixAt(t, a + s, |a| + k)
    ensures InfixAt(t, s + c, k)
  {
    assert (a + s)[|a| + k..|a| + k + |t|] == s[k..k + |t|];
    assert (s + c)[k..k + |t|] == s[k..k + |t|];
  }

  /** A prefix of a prefix is a prefix. */
  lemma StartsWithTransitive(s: string, p: string, q: string)
    requires StartsWith(s, p) && StartsWith(p, q)
    ensures StartsWith(s, q)
  {
    assert s[..|q|] == s[..|p|][..|q|];
  }

  predicate StartsWith(s: string, prefix: string) {
    |prefix| <= |s| && s[..|prefix|] == prefix
  }

  predicate EndsWith(s: string, suffix: string) {
    |suffix| <= |s| && s[|s| - |suffix|..] == suffix
  }

  /** `sep.join(parts)`. */
  function Join(parts: seq<string>, sep: string): string
  {
    if |parts| == 0 then ""
    else if |parts| == 1 then parts[0]
    else parts[0] + sep + Join(parts[1..], sep)
  }

  /** A join begins with the first piece and ends with the last one. */
  lemma {:induction false} JoinEnds(parts: seq<string>, sep: string)
    requires parts != []
    ensures StartsWith(Join(parts, sep), parts[0])
    ensures EndsWith(Join(parts, sep), parts[|parts| - 1])
    decreases |parts|
  {
    if |parts| > 1 {
      JoinEnds(parts[1..], sep);
      PrefixOfConcat(parts[0], sep + Join(parts[1..], sep));
      SuffixOfConcat(parts[0] + sep, Join(parts[1..], sep), parts[|parts| - 1]);
      AppendAssoc(parts[0], sep, Join(parts[1..], sep));
    }
  }

  lemma PrefixOfConcat(a: string, b: string)
    ensures StartsWith(a + b, a)
  {
    assert (a + b)[..|a|] == a;
  }

  lemma SuffixOfConcat(a: string, b: string, x: string)
    requires EndsWith(b, x)
    ensures EndsWith(a + b, x)
  {
    assert (a + b)[|a + b| - |x|..] == b[|b| - |x|..];
  }

  /** `s.split(sep)` for a non-empty separator: cut at every leftmost,
      non-overlapping occurrence of `sep`. */
  function Split(s: string, sep: string): (parts: seq<string>)
    requires sep != []
    ensures |parts| >= 1
    decreases |s|
  {
    if |s| < |sep| then [s]
    else if s[..|sep|] == sep then [""] + Split(s[|sep|..], sep)
    else
      var rest := Split(s[1..], sep);
      [[s[0]] + rest[0]] + rest[1..]
  }

  /** The first piece of a split is a prefix of the string. */
  lemma {:induction false} SplitFirstIsPrefix(s: string, sep: string)
    requires sep != []
    ensures StartsWith(s, Split(s, sep)[0])
    decreases |s|
  {
    if |s| < |sep| {
    } else if s[..|sep|] == sep {
    } else {
      var rest := Split(s[1..], sep);
      SplitFirstIsPrefix(s[1..], sep);
      assert s[..1 + |rest[0]|] == [s[0]] + s[1..][..|rest[0]|];
    }
  }

  /** Every piece of a split occurs in the string: a piece is cut out of
      the text, never assembled from separate places. */
  lemma {:induction false} SplitPiecesAreInfixes(s: string, sep: string)
    requires sep != []
    ensures forall i :: 0 <= i < |Split(s, sep)| ==> IsInfix(Split(s, sep)[i], s)
    decreases |s|
  {
    var parts := Split(s, sep);
    if |s| < |sep| {
      assert InfixAt(parts[0], s, 0);
    } else if s[..|sep|] == sep {
      var tail := s[|sep|..];
      var rest := Split(tail, sep);
      SplitPiecesAreInfixes(tail, sep);
      assert s == s[..|sep|] + tail;
      forall i | 0 <= i < |parts|
        ensures IsInfix(parts[i], s)
      {
        if i == 0 {
          assert InfixAt(parts[0], s, 0);
        } else {
          assert parts[i] == rest[i - 1];
          var k :| InfixAt(rest[i - 1], tail, k);
          InfixWiden(rest[i - 1], tail, k, s[..|sep|], "");
        }
      }
    } else {
      var tail := s[1..];
      var rest := Split(tail, sep);
      SplitPiecesAreInfixes(tail, sep);
      SplitFirstIsPrefix(tail, sep);
      assert s == [s[0]] + tail;
      forall i | 0 <= i < |parts|
        ensures IsInfix(parts[i], s)
      {
        if i == 0 {
          assert s[..1 + |rest[0]|] == [s[0]] + tail[..|rest[0]|];
          assert InfixAt(parts[0], s, 0);
        } else {
          assert parts[i] == rest[i];
          var k :| InfixAt(rest[i], tail, k);
          InfixWiden(rest[i], tail, k, [s[0]], "");
        }
      }
    }
  }

  /** Joining the pieces of a split with its separator gives the string
      back: splitting loses, adds and reorders nothing. */
  lemma {:induction false} JoinSplit(s: string, sep: string)
    requires sep != []
    ensures Join(Split(s, sep), sep) == s
    decreases |s|
  {
    if |s| < |sep| {
    } else if s[..|sep|] == sep {
      var rest := Split(s[|sep|..], sep);
      assert Split(s, sep) == [""] + rest;
      JoinSplit(s[|sep|..], sep);
      JoinEmptyFirst(rest, sep);
      assert s == sep + s[|sep|..];
    } else {
      var rest := Split(s[1..], sep);
      assert Split(s, sep) == [[s[0]] + rest[0]] + rest[1..];
      JoinSplit(s[1..], sep);
      JoinConsFirst(s[0], rest, sep);
      assert s == [s[0]] + s[1..];
    }
  }

  lemma JoinEmptyFirst(parts: seq<string>, sep: string)
    requires parts != []
    ensures Join([""] + parts, sep) == sep + Join(parts, sep)
  {
    assert ([""] + parts)[1..] == parts;
  }

  lemma JoinConsFirst(c: char, parts: seq<string>, sep: string)
    requires parts != []
    ensures Join([[c] + parts[0]] + parts[1..], sep) == [c] + Join(parts, sep)
  {
    var q := [[c] + parts[0]] + parts[1..];
    assert q[1..] == parts[1..];
    if |parts| > 1 {
      AppendAssoc([c], parts[0], sep);
      AppendAssoc([c], parts[0] + sep, Join(parts[1..], sep));
    }
  }

  /** Splitting on a one-character separator undoes joining with it,
      provided no part contains that character. */
  lemma {:induction false} SplitJoinRoundTrip(parts: seq<string>, c: char)
    requires |parts| >= 1
    requires forall i :: 0 <= i < |parts| ==> c !in parts[i]
    ensures Split(Join(parts, [c]), [c]) == parts
    decreases |parts|, |parts[0]|
  {
    var p := parts[0];
    if |parts| == 1 {
      SplitNoSeparator(p, c);
    } else if p == [] {
      var s := Join(parts, [c]);
      assert s == [c] + Join(parts[1..], [c]);
      assert s[..1] == [c];
      assert s[1..] == Join(parts[1..], [c]);
      SplitJoinRoundTrip(parts[1..], c);
      assert [""] + parts[1..] == parts;
    } else {
      var s := Join(parts, [c]);
      var tail := [p[1..]] + parts[1..];
      assert forall i :: 0 <= i < |tail| ==> c !in tail[i] by {
        forall i | 0 <= i < |tail| ensures c !in tail[i] {
          if i == 0 {
            assert forall x :: x in p[1..] ==> x in p;
          } else {
            assert tail[i] == parts[i];
          }
        }
      }
      assert Join(tail, [c]) == p[1..] + [c] + Join(parts[1..], [c]);
      assert s == [p[0]] + Join(tail, [c]);
      assert s[1..] == Join(tail, [c]);
      assert s[0] == p[0] != c by { assert p[0] in p; }
      assert s[..1] != [c];
      SplitJoinRoundTrip(tail, c);
      assert [p[0]] + p[1..] == p;
      assert tail[1..] == parts[1..];
      assert [[p[0]] + p[1..]] + parts[1..] == parts;
    }
  }

  /** A string without the separator splits into itself alone. */
  lemma {:induction false} SplitNoSeparator(s: string, c: char)
    requires c !in s
    ensures Split(s, [c]) == [s]
    decreases |s|
  {
    if |s| >= 1 {
      assert s[0] in s;
      assert s[..1] != [c];
      assert forall x :: x in s[1..] ==> x in s;
      SplitNoSeparator(s[1..], c);
      assert [s[0]] + s[1..] == s;
    }
  }

  /** `c.isspace()`: the characters Python treats as whitespace. */
  predicate IsSpace(c: char) {
    c == ' ' || ('\t' <= c <= '\r') || ('\U{1c}' <= c <= '\U{1f}') || c == '\U{85}' || c == '\U{a0}'
    || c == '\U{1680}' || ('\U{2000}' <= c <= '\U{200a}') || c == '\U{2028}' || c == '\U{2029}'
    || c == '\U{202f}' || c == '\U{205f}' || c == '\U{3000}'
  }

  function TrimStart(s: string): (r: string)
    ensures |r| <= |s| && r == s[|s| - |r|..]
    ensures r != [] ==> !IsSpace(r[0])
    ensures forall i :: 0 <= i < |s| - |r| ==> IsSpace(s[i])
  {
    if s != [] && IsSpace(s[0]) then TrimStart(s[1..]) else s
  }

  function TrimEnd(s: string): (r: string)
    ensures |r| <= |s| && r == s[..|r|]
    ensures r != [] ==> !IsSpace(r[|r| - 1])
    ensures forall i :: |r| <= i < |s| ==> IsSpace(s[i])
  {
    if s != [] && IsSpace(s[|s| - 1]) then TrimEnd(s[..|s| - 1]) else s
  }

  /** `s.strip()`: drop leading and trailing whitespace. */
  function Strip(s: string): (r: string)
    ensures |r| <= |s|
    ensures r != [] ==> !IsSpace(r[0]) && !IsSpace(r[|r| - 1])
  {
    TrimEnd(TrimStart(s))
  }

  /** The stripped text is empty exactly when the input is all whitespace. */
  lemma StripEmptyIffAllSpace(s: string)
    ensures Strip(s) == [] <==> forall i :: 0 <= i < |s| ==> IsSpace(s[i])
  {
    var t := TrimStart(s);
    if Strip(s) != [] {
      var r := Strip(s);
      assert r[0] == t[0];
      assert t[0] == s[|s| - |t|];
    }
  }

  /** Text that neither starts nor ends with whitespace is its own strip. */
  lemma StripUnchanged(s: string)
    requires s != [] && !IsSpace(s[0]) && !IsSpace(s[|s| - 1])
    ensures Strip(s) == s
  {
    assert TrimStart(s) == s;
  }

  /** Stripping twice changes nothing more. */
  lemma StripIdempotent(s: string)
    ensures Strip(Strip(s)) == Strip(s)
  {
    var r := Strip(s);
    if r != [] {
      assert TrimStart(r) == r;
      assert TrimEnd(r) == r;
    }
  }

  predicate IsAsciiUpper(c: char) { 'A' <= c <= 'Z' }
  predicate IsAsciiLower(c: char) { 'a' <= c <= 'z' }

  /** `s.isupper()`: at least one cased character and no lower-case one
      (letters outside ASCII are treated as uncased). */
  predicate IsUpper(s: string) {
    (exists i :: 0 <= i < |s| && IsAsciiUpper(s[i]))
    && (forall i :: 0 <= i < |s| ==> !IsAsciiLower(s[i]))
  }

  function DigitChar(d: nat): char
    requires d < 10
  {
    "0123456789"[d]
  }

  /** `str(n)` for a natural number: its decimal digits, no leading zero. */
  function NatToString(n: nat): (r: string)
    ensures |r| >= 1
    ensures forall i :: 0 <= i < |r| ==> '0' <= r[i] <= '9'
    ensures n > 0 ==> r[0] != '0'
  {
    if n < 10 then [DigitChar(n)] else NatToString(n / 10) + [DigitChar(n % 10)]
  }

  /** `str(i)` for any integer. */
  function IntToString(i: int): (r: string)
    ensures |r| >= 1
    ensures (i < 0) <==> r[0] == '-'
  {
    if i < 0 then "-" + NatToString(-i) else NatToString(i)
  }
}
