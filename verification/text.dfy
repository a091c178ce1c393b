/** The Python string operations the handlers rely on, over `seq<char>`.
    Only the ASCII range is modelled: `Whitespace` is what `str.isspace`
    accepts below 0x80, and `Upper` only maps `a`-`z`. */
module Text {

  /** Characters Python's `str.isspace` accepts in the ASCII range. */
  const Whitespace: set<char> :=
    {' ', '\t', '\n', '\r', '\U{0B}', '\U{0C}', '\U{1C}', '\U{1D}', '\U{1E}', '\U{1F}'}

  /** Neither end of `s` is a character of `cs`. */
  predicate NoEdge(s: string, cs: set<char>) {
    s == [] || (s[0] !in cs && s[|s| - 1] !in cs)
  }

  /** Python `s.lstrip(cs)`: the longest suffix of `s` not starting with a character of `cs`. */
  function StripStart(s: string, cs: set<char>): (r: string)
    ensures |r| <= |s|
    ensures r == [] || r[0] !in cs
    decreases |s|
  {
    if |s| > 0 && s[0] in cs then StripStart(s[1..], cs) else s
  }

  /** Python `s.rstrip(cs)`: the longest prefix of `s` not ending with a character of `cs`. */
  function StripEnd(s: string, cs: set<char>): (r: string)
    ensures |r| <= |s|
    ensures r == [] || r[|r| - 1] !in cs
    decreases |s|
  {
    if |s| > 0 && s[|s| - 1] in cs then StripEnd(s[..|s| - 1], cs) else s
  }

  /** `StripStart` removes a prefix made of characters of `cs` only. */
  lemma {:induction false} StripStartSuffix(s: string, cs: set<char>)
    ensures StripStart(s, cs) == s[|s| - |StripStart(s, cs)|..]
    ensures forall k :: 0 <= k < |s| - |StripStart(s, cs)| ==> s[k] in cs
    decreases |s|
  {
    if |s| > 0 && s[0] in cs {
      StripStartSuffix(s[1..], cs);
    }
  }

  /** `StripEnd` removes a suffix made of characters of `cs` only. */
  lemma {:induction false} StripEndPrefix(s: string, cs: set<char>)
    ensures StripEnd(s, cs) == s[..|StripEnd(s, cs)|]
    ensures forall k :: |StripEnd(s, cs)| <= k < |s| ==> s[k] in cs
    decreases |s|
  {
    if |s| > 0 && s[|s| - 1] in cs {
      StripEndPrefix(s[..|s| - 1], cs);
    }
  }

  /** Python `s.strip(cs)`. */
  function StripChars(s: string, cs: set<char>): (r: string)
    ensures |r| <= |s|
    ensures NoEdge(r, cs)
  {
    var head := StripStart(s, cs);
    var r := StripEnd(head, cs);
    StripEndPrefix(head, cs);
    assert r != [] ==> r[0] == head[0];
    r
  }

  /** Python `s.strip()` over ASCII whitespace. */
  function Strip(s: string): string {
    StripChars(s, Whitespace)
  }

  /** What is removed from each end of `s` by `StripChars` is made of characters
      of `cs` only, and what is kept is the slice between. */
  lemma StripCharsSlice(s: string, cs: set<char>) returns (i: nat, j: nat)
    ensures i <= j <= |s| && StripChars(s, cs) == s[i..j]
    ensures forall k :: 0 <= k < i ==> s[k] in cs
    ensures forall k :: j <= k < |s| ==> s[k] in cs
  {
    var head := StripStart(s, cs);
    StripStartSuffix(s, cs);
    StripEndPrefix(head, cs);
    i := |s| - |head|;
    j := i + |StripEnd(head, cs)|;
    assert head == s[i..];
  }

  /** Text whose ends are already free of `cs` is left unchanged. */
  lemma StripCharsKeepsClean(s: string, cs: set<char>)
    requires NoEdge(s, cs)
    ensures StripChars(s, cs) == s
  {
  }

  /** Stripping text padded on both sides with characters of `cs` gives the
      core back when the core is non-empty and has no such character at
      either end. */
  lemma StripAround(pre: string, core: string, post: string, cs: set<char>)
    requires forall i :: 0 <= i < |pre| ==> pre[i] in cs
    requires forall i :: 0 <= i < |post| ==> post[i] in cs
    requires core != [] && NoEdge(core, cs)
    ensures StripChars(pre + core + post, cs) == core
  {
    StripStartPadded(pre, core + post, cs);
    assert pre + core + post == pre + (core + post);
    StripEndPadded(core, post, cs);
  }

  lemma {:induction false} StripStartPadded(pre: string, s: string, cs: set<char>)
    requires forall i :: 0 <= i < |pre| ==> pre[i] in cs
    requires s != [] && s[0] !in cs
    ensures StripStart(pre + s, cs) == s
    decreases |pre|
  {
    if |pre| > 0 {
      assert (pre + s)[1..] == pre[1..] + s;
      StripStartPadded(pre[1..], s, cs);
    }
  }

  lemma {:induction false} StripEndPadded(s: string, post: string, cs: set<char>)
    requires forall i :: 0 <= i < |post| ==> post[i] in cs
    requires s != [] && s[|s| - 1] !in cs
    ensures StripEnd(s + post, cs) == s
    decreases |post|
  {
    if |post| > 0 {
      assert (s + post)[..|s + post| - 1] == s + post[..|post| - 1];
      StripEndPadded(s, post[..|post| - 1], cs);
    }
  }

  predicate StartsWith(s: string, p: string) {
    |p| <= |s| && s[..|p|] == p
  }

  /** Texts whose first characters differ do not start with one another. */
  lemma FirstCharMismatch(s: string, p: string)
    requires s != [] && p != [] && s[0] != p[0]
    ensures !StartsWith(s, p)
  {
    if |p| <= |s| {
      assert s[..|p|][0] != p[0];
    }
  }

  predicate EndsWith(s: string, p: string) {
    |p| <= |s| && s[|s| - |p|..] == p
  }

  /** A common lead keeps one text a prefix of another. */
  lemma StartsWithPrepend(a: string, s: string, p: string)
    requires StartsWith(s, p)
    ensures StartsWith(a + s, a + p)
  {
    assert (a + s)[..|a + p|] == a + s[..|p|];
  }

  /** `p` occurs in `s` starting at index `i`. */
  predicate OccursAt(s: string, p: string, i: int) {
    0 <= i && i + |p| <= |s| && s[i..i + |p|] == p
  }

  /** Python `s.find(p, start)` for a non-negative start: the least index at or
      after `start` where `p` occurs, or -1. */
  function FindFrom(s: string, p: string, start: nat): (r: int)
    ensures r == -1 || (start <= r && OccursAt(s, p, r))
    decreases |s| - start
  {
    if start + |p| > |s| then -1
    else if s[start..start + |p|] == p then start
    else FindFrom(s, p, start + 1)
  }

  /** `FindFrom` finds any occurrence at or after `start`, or an earlier one. */
  lemma {:induction false} FindFromFinds(s: string, p: string, start: nat, i: nat)
    requires start <= i && OccursAt(s, p, i)
    ensures 0 <= FindFrom(s, p, start) <= i
    decreases |s| - start
  {
    if s[start..start + |p|] != p {
      FindFromFinds(s, p, start + 1, i);
    }
  }

  /** No occurrence lies between `start` and the index `FindFrom` returns. */
  lemma {:induction false} FindFromFirst(s: string, p: string, start: nat, i: nat)
    requires start <= i
    requires FindFrom(s, p, start) == -1 || i < FindFrom(s, p, start)
    ensures !OccursAt(s, p, i)
    decreases |s| - start
  {
    if start + |p| <= |s| && s[start..start + |p|] != p && start < i {
      FindFromFirst(s, p, start + 1, i);
    }
  }

  /** Python `s.find(p)`. */
  function Find(s: string, p: string): int {
    FindFrom(s, p, 0)
  }

  /** Python `p in s`. */
  predicate Contains(s: string, p: string) {
    Find(s, p) >= 0
  }

  /** Text placed between two others is found by `Find`. */
  lemma ContainsMiddle(a: string, x: string, b: string)
    ensures OccursAt(a + x + b, x, |a|)
    ensures Contains(a + x + b, x)
  {
    assert (a + x + b)[|a|..|a| + |x|] == x;
    FindFromFinds(a + x + b, x, 0, |a|);
  }

  /** Text appended last is a suffix. */
  lemma EndsWithAppend(a: string, b: string)
    ensures EndsWith(a + b, b)
  {
    assert (a + b)[|a|..] == b;
  }

  /** Text put first is a prefix. */
  lemma StartsWithAppend(a: string, b: string)
    ensures StartsWith(a + b, a)
  {
    assert (a + b)[..|a|] == a;
  }

  /** An occurrence of `p` inside `t`, itself occurring inside `s`, is an occurrence in `s`. */
  lemma OccursAtTrans(s: string, t: string, p: string, i: int, j: int)
    requires OccursAt(t, p, i) && OccursAt(s, t, j)
    ensures OccursAt(s, p, i + j)
  {
    assert t == s[j..j + |t|];
    forall k | 0 <= k < |p|
      ensures p[k] == s[i + j + k]
    {
      assert p[k] == t[i + k];
    }
    assert s[i + j..i + j + |p|] == p;
  }

  /** Inside an occurrence, the text repeats the pattern character by character. */
  lemma OccursAtIndex(s: string, p: string, i: int, j: int)
    requires OccursAt(s, p, i) && i <= j < i + |p|
    ensures s[j] == p[j - i]
  {
    assert s[j] == s[i..i + |p|][j - i];
  }

  /** A single character occurs exactly where it is stored. */
  lemma OccursAtChar(s: string, c: char, i: int)
    requires 0 <= i < |s|
    ensures OccursAt(s, [c], i) <==> s[i] == c
  {
    if s[i] == c {
      assert s[i..i + 1] == [c];
    }
  }

  /** Python `s.split(sep)` for a one-character separator. */
  function Split(s: string, sep: char): (parts: seq<string>)
    ensures |parts| >= 1
    decreases |s|
  {
    var i := FindFrom(s, [sep], 0);
    if i < 0 then [s]
    else [s[..i]] + Split(s[i + 1..], sep)
  }

  /** No piece of a split holds the separator. */
  lemma {:induction false} SplitPiecesFree(s: string, sep: char)
    ensures forall k :: 0 <= k < |Split(s, sep)| ==> sep !in Split(s, sep)[k]
    decreases |s|
  {
    var i := FindFrom(s, [sep], 0);
    if i < 0 {
      forall k | 0 <= k < |s| ensures s[k] != sep {
        FindFromFirst(s, [sep], 0, k);
        OccursAtChar(s, sep, k);
      }
    } else {
      forall k | 0 <= k < i ensures s[k] != sep {
        FindFromFirst(s, [sep], 0, k);
        OccursAtChar(s, sep, k);
      }
      assert s[..i][0..i] == s[..i];
      SplitPiecesFree(s[i + 1..], sep);
      var rest := Split(s[i + 1..], sep);
      assert Split(s, sep) == [s[..i]] + rest;
    }
  }

  /** Python `sep.join(parts)`. */
  function Join(sep: string, parts: seq<string>): string
    decreases |parts|
  {
    if |parts| == 0 then ""
    else if |parts| == 1 then parts[0]
    else parts[0] + sep + Join(sep, parts[1..])
  }

  /** Joining at least two parts puts the separator after the first. */
  lemma JoinCons(sep: string, part: string, rest: seq<string>)
    requires |rest| >= 1
    ensures Join(sep, [part] + rest) == part + sep + Join(sep, rest)
  {
    assert ([part] + rest)[1..] == rest;
  }

  /** A text is its part before a separator, the separator, and the part after. */
  lemma CutAt(s: string, sep: char, i: nat)
    requires i < |s| && OccursAt(s, [sep], i)
    ensures s == s[..i] + [sep] + s[i + 1..]
  {
    assert s[i..i + 1] == [sep];
    assert s == s[..i] + s[i..i + 1] + s[i + 1..];
  }

  /** Joining the pieces of a split with the separator gives the text back. */
  lemma {:induction false} SplitJoin(s: string, sep: char)
    ensures Join([sep], Split(s, sep)) == s
    decreases |s|
  {
    var i := FindFrom(s, [sep], 0);
    if i >= 0 {
      var rest := Split(s[i + 1..], sep);
      SplitJoin(s[i + 1..], sep);
      assert Split(s, sep) == [s[..i]] + rest;
      JoinCons([sep], s[..i], rest);
      CutAt(s, sep, i);
    }
  }

  /** Every piece of a split occurs in the text it came from. */
  lemma {:induction false} SplitPieceOccurs(s: string, sep: char, k: nat) returns (offset: nat)
    requires k < |Split(s, sep)|
    ensures OccursAt(s, Split(s, sep)[k], offset)
    decreases |s|
  {
    var i := FindFrom(s, [sep], 0);
    if i < 0 {
      offset := 0;
      assert s[0..|s|] == s;
    } else if k == 0 {
      offset := 0;
    } else {
      var inner := SplitPieceOccurs(s[i + 1..], sep, k - 1);
      OccursAtTrans(s, s[i + 1..], Split(s[i + 1..], sep)[k - 1], inner, i + 1);
      offset := inner + i + 1;
    }
  }

  /** Splitting pieces joined with a separator they do not contain gives the pieces back. */
  lemma {:induction false} JoinSplit(parts: seq<string>, sep: char)
    requires |parts| >= 1
    requires forall k :: 0 <= k < |parts| ==> sep !in parts[k]
    ensures Split(Join([sep], parts), sep) == parts
    decreases |parts|
  {
    var s := Join([sep], parts);
    if |parts| == 1 {
      assert s == parts[0];
      NoSeparator(s, sep);
    } else {
      var p0 := parts[0];
      var rest := Join([sep], parts[1..]);
      assert s == p0 + [sep] + rest;
      FirstSeparator(p0, sep, rest);
      JoinSplit(parts[1..], sep);
      assert s[..|p0|] == p0;
      assert s[|p0| + 1..] == rest;
    }
  }

  /** A text without the separator has no occurrence of it. */
  lemma NoSeparator(s: string, sep: char)
    requires sep !in s
    ensures FindFrom(s, [sep], 0) == -1
  {
    forall k | 0 <= k < |s| ensures !OccursAt(s, [sep], k) {
      OccursAtChar(s, sep, k);
    }
  }

  /** The first separator is the one right after a part that has none. */
  lemma FirstSeparator(p0: string, sep: char, rest: string)
    requires sep !in p0
    ensures FindFrom(p0 + [sep] + rest, [sep], 0) == |p0|
  {
    var s := p0 + [sep] + rest;
    assert s[|p0|..|p0| + 1] == [sep];
    FindFromFinds(s, [sep], 0, |p0|);
    forall k | 0 <= k < |p0| ensures !OccursAt(s, [sep], k) {
      assert s[k] == p0[k];
      OccursAtChar(s, sep, k);
    }
  }

  /** Each part of a join occurs in the joined text. */
  lemma {:induction false} JoinPartOccurs(sep: string, parts: seq<string>, k: nat) returns (offset: nat)
    requires k < |parts|
    ensures OccursAt(Join(sep, parts), parts[k], offset)
    decreases |parts|
  {
    if |parts| == 1 {
      offset := 0;
      assert Join(sep, parts)[0..|parts[0]|] == parts[0];
    } else if k == 0 {
      offset := 0;
      ContainsMiddle([], parts[0], sep + Join(sep, parts[1..]));
      assert Join(sep, parts) == [] + parts[0] + (sep + Join(sep, parts[1..]));
    } else {
      var inner := JoinPartOccurs(sep, parts[1..], k - 1);
      var a := parts[0] + sep;
      assert Join(sep, parts) == a + Join(sep, parts[1..]) + [];
      ContainsMiddle(a, Join(sep, parts[1..]), []);
      OccursAtTrans(Join(sep, parts), Join(sep, parts[1..]), parts[k], inner, |a|);
      offset := inner + |a|;
    }
  }

  /** ASCII upper-casing of one character. */
  function UpperChar(c: char): char {
    if 'a' <= c <= 'z' then (c as int - 32) as char else c
  }

  /** Python `s.upper()` restricted to ASCII letters. */
  function Upper(s: string): string {
    seq(|s|, i requires 0 <= i < |s| => UpperChar(s[i]))
  }

  /** Python `xs.index(x)` when `x in xs`, and -1 otherwise. */
  function IndexOf<T(==)>(xs: seq<T>, x: T): (r: int)
    ensures r == -1 <==> x !in xs
    ensures r >= 0 ==> r < |xs| && xs[r] == x && x !in xs[..r]
    decreases |xs|
  {
    if |xs| == 0 then -1
    else if xs[0] == x then 0
    else
      var r := IndexOf(xs[1..], x);
      if r < 0 then -1
      else
        assert xs[1..][..r] == xs[1..r + 1];
        r + 1
  }

  /** The index of the last occurrence of `x`: the position whose entry a
      later assignment to the same key would not overwrite. */
  function LastIndexOf<T(==)>(xs: seq<T>, x: T): (r: nat)
    requires x in xs
    ensures r < |xs| && xs[r] == x && x !in xs[r + 1..]
    decreases |xs|
  {
    if x in xs[1..] then
      var r := LastIndexOf(xs[1..], x);
      assert xs[r + 2..] == xs[1..][r + 1..];
      r + 1
    else 0
  }

  /** In a concatenation, the last occurrence lies in the second part when
      the second part holds `x` at all. */
  lemma {:induction false} LastIndexOfAppend<T>(a: seq<T>, b: seq<T>, x: T)
    requires x in a + b
    ensures x in b ==> LastIndexOf(a + b, x) == |a| + LastIndexOf(b, x)
    ensures x !in b ==> x in a && LastIndexOf(a + b, x) == LastIndexOf(a, x)
    decreases |a|
  {
    if |a| > 0 {
      assert (a + b)[1..] == a[1..] + b;
      if x in a[1..] + b {
        LastIndexOfAppend(a[1..], b, x);
      }
    } else {
      assert a + b == b;
    }
  }

  /** Concatenation of a sequence of sequences, in order. */
  function Flatten<T>(xss: seq<seq<T>>): seq<T>
    decreases |xss|
  {
    if |xss| == 0 then [] else xss[0] + Flatten(xss[1..])
  }

  // ---------------------------------------------------------------------------
  // Python's repr of strings and lists of strings

  /** The quote `repr` puts around a string: `'`, unless the string holds a
      `'` and no `"`. */
  function ReprQuote(s: string): (q: char)
    ensures q == '"' <==> '\'' in s && '"' !in s
    ensures q == '\'' || q == '"'
  {
    if '\'' in s && '"' !in s then '"' else '\''
  }

  const HexDigits: string := "0123456789abcdef"

  /** How `repr` writes one character between quotes `q`: backslash, the
      quote itself, tab, newline and carriage return get a backslash escape,
      the other ASCII control characters a `\xhh` escape, and every other
      character stands for itself. */
  function ReprChar(c: char, q: char): string {
    if c == '\\' then ['\\', '\\']
    else if c == q then ['\\', q]
    else if c == '\t' then ['\\', 't']
    else if c == '\n' then ['\\', 'n']
    else if c == '\r' then ['\\', 'r']
    else if c < ' ' || c == '\U{7F}' then ['\\', 'x', HexDigits[c as int / 16], HexDigits[c as int % 16]]
    else [c]
  }

  /** The characters of a string as `repr` writes them between quotes `q`. */
  function ReprBody(s: string, q: char): string
    decreases |s|
  {
    if |s| == 0 then [] else ReprChar(s[0], q) + ReprBody(s[1..], q)
  }

  /** Python `repr(s)` of a string. */
  function StrRepr(s: string): string {
    var q := ReprQuote(s);
    [q] + ReprBody(s, q) + [q]
  }

  /** Python's `repr` of a list of strings: `['a', 'b']`. */
  function QuotedList(names: seq<string>): string {
    "[" + Join(", ", seq(|names|, i requires 0 <= i < |names| => StrRepr(names[i]))) + "]"
  }

  /** The value of a hexadecimal digit. */
  function HexValue(d: char): int {
    if '0' <= d <= '9' then d as int - '0' as int else d as int - 'a' as int + 10
  }

  /** Reading back the body of a string literal: each escape `repr` writes
      stands for the character it escapes. */
  function Unescape(s: string): string
    decreases |s|
  {
    if |s| >= 2 && s[0] == '\\' then
      if s[1] == 't' then ['\t'] + Unescape(s[2..])
      else if s[1] == 'n' then ['\n'] + Unescape(s[2..])
      else if s[1] == 'r' then ['\r'] + Unescape(s[2..])
      else if s[1] == 'x' && |s| >= 4 then
        var code := 16 * HexValue(s[2]) + HexValue(s[3]);
        (if 0 <= code < 0x80 then [code as char] else []) + Unescape(s[4..])
      else [s[1]] + Unescape(s[2..])
    else if |s| == 0 then []
    else [s[0]] + Unescape(s[1..])
  }

  /** A `\xhh` escape reads back as the control character it encodes. */
  lemma HexRoundTrip(c: char)
    requires c < ' ' || c == '\U{7F}'
    ensures 16 * HexValue(HexDigits[c as int / 16]) + HexValue(HexDigits[c as int % 16]) == c as int
  {
    var n := c as int;
    if n < 16 {
      assert n / 16 == 0 && n % 16 == n;
    } else if n < 32 {
      assert n / 16 == 1 && n % 16 == n - 16;
    } else {
      assert n / 16 == 7 && n % 16 == 15;
    }
    HexDigitValue(n / 16);
    HexDigitValue(n % 16);
  }

  lemma HexDigitValue(k: int)
    requires 0 <= k < 16
    ensures HexValue(HexDigits[k]) == k
  {
  }

  /** The escape of one character reads back as that character, whatever
      follows it. */
  lemma {:induction false} UnescapeChar(c: char, q: char, rest: string)
    requires q == '\'' || q == '"'
    ensures Unescape(ReprChar(c, q) + rest) == [c] + Unescape(rest)
  {
    var w := ReprChar(c, q);
    if c < ' ' || c == '\U{7F}' {
      if c != '\t' && c != '\n' && c != '\r' {
        HexRoundTrip(c);
        assert (w + rest)[4..] == rest;
      } else {
        assert (w + rest)[2..] == rest;
      }
    } else if c == '\\' || c == q {
      assert (w + rest)[2..] == rest;
    } else {
      assert (w + rest)[1..] == rest;
    }
  }

  /** `repr` loses nothing: the body of the literal reads back as the string. */
  lemma {:induction false} UnescapeRepr(s: string, q: char)
    requires q == '\'' || q == '"'
    ensures Unescape(ReprBody(s, q)) == s
    decreases |s|
  {
    if |s| > 0 {
      UnescapeChar(s[0], q, ReprBody(s[1..], q));
      UnescapeRepr(s[1..], q);
      assert [s[0]] + s[1..] == s;
    }
  }

  /** Every `q` in `t` comes right after a backslash. */
  predicate Escaped(t: string, q: char) {
    forall i :: 0 <= i < |t| && t[i] == q ==> i > 0 && t[i - 1] == '\\'
  }

  lemma EscapedAppend(a: string, b: string, q: char)
    requires Escaped(a, q) && Escaped(b, q)
    ensures Escaped(a + b, q)
  {
    forall i | 0 <= i < |a + b| && (a + b)[i] == q
      ensures i > 0 && (a + b)[i - 1] == '\\'
    {
      if i >= |a| {
        assert (a + b)[i] == b[i - |a|];
        if i > |a| {
          assert (a + b)[i - 1] == b[i - 1 - |a|];
        }
      }
    }
  }

  lemma CharEscaped(c: char, q: char)
    requires q == '\'' || q == '"'
    ensures Escaped(ReprChar(c, q), q)
  {
    var w := ReprChar(c, q);
    if c == '\\' || c == q || c == '\t' || c == '\n' || c == '\r' {
      assert |w| == 2 && w[0] == '\\';
    } else if c < ' ' || c == '\U{7F}' {
      assert w == ['\\', 'x', HexDigits[c as int / 16], HexDigits[c as int % 16]];
      assert '0' <= w[2] <= 'f' && '0' <= w[3] <= 'f';
    } else {
      assert w == [c];
    }
  }

  /** The quote `repr` chose occurs in the body only right after a
      backslash, so the literal ends at its closing quote. */
  lemma {:induction false} QuoteEscaped(s: string, q: char)
    requires q == '\'' || q == '"'
    ensures forall i :: 0 <= i < |ReprBody(s, q)| && ReprBody(s, q)[i] == q ==> i > 0 && ReprBody(s, q)[i - 1] == '\\'
    decreases |s|
  {
    if |s| > 0 {
      QuoteEscaped(s[1..], q);
      CharEscaped(s[0], q);
      EscapedAppend(ReprChar(s[0], q), ReprBody(s[1..], q), q);
    }
  }

  /** Printable ASCII characters other than the backslash and the quote `q`
      stand for themselves between quotes `q`. */
  lemma {:induction false} PlainBody(s: string, q: char)
    requires forall i :: 0 <= i < |s| ==> ' ' <= s[i] <= '~' && s[i] != q && s[i] != '\\'
    ensures ReprBody(s, q) == s
    decreases |s|
  {
    if |s| > 0 {
      PlainBody(s[1..], q);
      assert [s[0]] + s[1..] == s;
    }
  }

  /** A string of printable ASCII characters other than `'` and the
      backslash is written between single quotes as it is. */
  lemma PlainRepr(s: string)
    requires forall i :: 0 <= i < |s| ==> ' ' <= s[i] <= '~' && s[i] != '\'' && s[i] != '\\'
    ensures StrRepr(s) == "'" + s + "'"
  {
    PlainBody(s, '\'');
  }

  /** A string of printable ASCII characters without `"` or backslash that
      holds a `'` is written between double quotes as it is. */
  lemma ApostropheRepr(s: string)
    requires forall i :: 0 <= i < |s| ==> ' ' <= s[i] <= '~' && s[i] != '"' && s[i] != '\\'
    requires '\'' in s
    ensures StrRepr(s) == "\"" + s + "\""
  {
    PlainBody(s, '"');
  }

  /** A one-element list is its element's `repr` in brackets. */
  lemma SingletonList(name: string)
    ensures QuotedList([name]) == "[" + StrRepr(name) + "]"
  {
    assert seq(1, i requires 0 <= i < 1 => StrRepr([name][i])) == [StrRepr(name)];
  }

  /** A name holding an apostrophe is listed between double quotes. */
  lemma ApostropheInList()
    ensures QuotedList(["Bob's"]) == "[\"Bob's\"]"
  {
    SingletonList("Bob's");
    ApostropheRepr("Bob's");
  }
}
