/** The parts of Rust's `str` API the telemetry collector relies on, over
    `string` (a sequence of Unicode scalar values): `lines`, `split_whitespace`,
    `trim`, `strip_prefix`, `parse` for `u64` and `i32`, `{}` for unsigned
    integers, and `join`; plus `Split`, the inverse of `Join`. */
module Text {
  import opened Wrappers
  import opened Numeric

  // ---------------------------------------------------------------------------
  // Sequences

  /** The first `i + 1` elements are the first `i` and then element `i`. */
  lemma TakeNext<T>(s: seq<T>, i: nat)
    requires i < |s|
    ensures s[..i + 1] == s[..i] + [s[i]]
  {
  }

  // ---------------------------------------------------------------------------
  // Characters

  /** `char::is_whitespace`: the characters with the Unicode White_Space property. */
  predicate IsWhitespace(c: char) {
    || ('\t' <= c <= '\r')
    || c == ' '
    || c == '\U{85}'
    || c == '\U{A0}'
    || c == '\U{1680}'
    || ('\U{2000}' <= c <= '\U{200A}')
    || c == '\U{2028}'
    || c == '\U{2029}'
    || c == '\U{202F}'
    || c == '\U{205F}'
    || c == '\U{3000}'
  }

  predicate NoWhitespace(s: string) {
    forall i :: 0 <= i < |s| ==> !IsWhitespace(s[i])
  }

  predicate IsDigit(c: char) {
    '0' <= c <= '9'
  }

  predicate AllDigits(s: string) {
    forall i :: 0 <= i < |s| ==> IsDigit(s[i])
  }

  // ---------------------------------------------------------------------------
  // Prefixes

  predicate StartsWith(s: string, prefix: string) {
    |prefix| <= |s| && s[..|prefix|] == prefix
  }

  lemma StartsWithAppend(prefix: string, rest: string)
    ensures StartsWith(prefix + rest, prefix)
  {
    assert (prefix + rest)[..|prefix|] == prefix;
  }

  /** `str::strip_prefix`. */
  function StripPrefix(s: string, prefix: string): (r: Option<string>)
    ensures r.Some? <==> StartsWith(s, prefix)
    ensures r.Some? ==> prefix + r.value == s
  {
    if StartsWith(s, prefix) then Some(s[|prefix|..]) else None
  }

  // ---------------------------------------------------------------------------
  // Lines

  /** Index of the first `c` in `s`, or `|s|` when `s` has none. */
  function IndexOf(s: string, c: char): (i: nat)
    ensures i <= |s|
    ensures i < |s| ==> s[i] == c
    ensures forall j :: 0 <= j < i ==> s[j] != c
  {
    if s == [] || s[0] == c then 0 else 1 + IndexOf(s[1..], c)
  }

  function StripCarriageReturn(line: string): string {
    if |line| > 0 && line[|line| - 1] == '\r' then line[..|line| - 1] else line
  }

  /** `str::lines`: the pieces between `'\n'`s, each losing one `'\r'` that
      stood before its `'\n'`; a final `'\n'` ends the last line rather than
      starting an empty one, and the empty string has no lines. */
  function Lines(s: string): (r: seq<string>)
    ensures r == [] <==> s == []
    ensures forall k :: 0 <= k < |r| ==> '\n' !in r[k]
    decreases |s|
  {
    if s == [] then []
    else
      var i := IndexOf(s, '\n');
      if i == |s| then [s]
      else [StripCarriageReturn(s[..i])] + Lines(s[i + 1..])
  }

  /** A line terminated by `'\n'` is the first line, the rest follow it. */
  lemma LinesCons(a: string, b: string)
    requires '\n' !in a
    ensures Lines(a + "\n" + b) == [StripCarriageReturn(a)] + Lines(b)
  {
    var s := a + "\n" + b;
    var i := IndexOf(s, '\n');
    assert s[|a|] == '\n';
    assert forall j :: 0 <= j < |a| ==> s[j] == a[j];
    assert i == |a|;
    assert s[..i] == a;
    assert s[i + 1..] == b;
  }

  /** Text without a line break is one line. */
  lemma LinesSingle(a: string)
    requires a != [] && '\n' !in a
    ensures Lines(a) == [a]
  {
    assert IndexOf(a, '\n') == |a|;
  }

  // ---------------------------------------------------------------------------
  // Whitespace

  /** Length of the leading run of non-whitespace characters. */
  function TokenEnd(s: string): (k: nat)
    ensures k <= |s|
    ensures NoWhitespace(s[..k])
    ensures k < |s| ==> IsWhitespace(s[k])
  {
    if s == [] || IsWhitespace(s[0]) then 0
    else
      var k := 1 + TokenEnd(s[1..]);
      assert s[..k] == [s[0]] + s[1..][..k - 1];
      k
  }

  /** `str::split_whitespace`: the maximal runs of non-whitespace characters, in order. */
  function SplitWhitespace(s: string): (r: seq<string>)
    ensures forall k :: 0 <= k < |r| ==> r[k] != [] && NoWhitespace(r[k])
    decreases |s|
  {
    if s == [] then []
    else if IsWhitespace(s[0]) then SplitWhitespace(s[1..])
    else
      var k := TokenEnd(s);
      [s[..k]] + SplitWhitespace(s[k..])
  }

  lemma {:induction false} TokenEndWhole(t: string, rest: string)
    requires NoWhitespace(t)
    requires rest == [] || IsWhitespace(rest[0])
    ensures TokenEnd(t + rest) == |t|
  {
    var s := t + rest;
    if t == [] {
      assert s == rest;
    } else {
      assert s[0] == t[0] && !IsWhitespace(t[0]);
      assert s[1..] == t[1..] + rest;
      assert NoWhitespace(t[1..]) by {
        forall i | 0 <= i < |t| - 1
          ensures !IsWhitespace(t[1..][i])
        {
          assert t[1..][i] == t[i + 1];
        }
      }
      TokenEndWhole(t[1..], rest);
    }
  }

  /** A token followed by whitespace is the first word of the text. */
  lemma SplitWhitespaceCons(t: string, w: char, rest: string)
    requires t != [] && NoWhitespace(t) && IsWhitespace(w)
    ensures SplitWhitespace(t + [w] + rest) == [t] + SplitWhitespace([w] + rest)
  {
    var s := t + ([w] + rest);
    assert t + [w] + rest == s;
    TokenEndWhole(t, [w] + rest);
    assert s[..|t|] == t;
    assert s[|t|..] == [w] + rest;
  }

  /** A single token is its own split. */
  lemma SplitWhitespaceSingle(t: string)
    requires t != [] && NoWhitespace(t)
    ensures SplitWhitespace(t) == [t]
  {
    TokenEndWhole(t, []);
    assert t + [] == t;
    assert t[|t|..] == [];
  }

  /** `t` joined to whitespace-free words by single spaces splits back into them. */
  lemma SplitWhitespaceJoin(words: seq<string>)
    requires |words| >= 1
    requires forall k :: 0 <= k < |words| ==> words[k] != [] && NoWhitespace(words[k])
    ensures SplitWhitespace(Join(words, " ")) == words
  {
    if |words| == 1 {
      SplitWhitespaceSingle(words[0]);
    } else {
      var rest := Join(words[1..], " ");
      SplitWhitespaceJoin(words[1..]);
      SplitWhitespaceCons(words[0], ' ', rest);
      assert words[0] + " " + rest == words[0] + [' '] + rest;
      assert ([' '] + rest)[1..] == rest;
      assert words == [words[0]] + words[1..];
    }
  }

  /** Leading whitespace adds no word. */
  lemma {:induction false} SplitWhitespaceGap(gap: string, s: string)
    requires forall i :: 0 <= i < |gap| ==> IsWhitespace(gap[i])
    ensures SplitWhitespace(gap + s) == SplitWhitespace(s)
    decreases |gap|
  {
    if gap == [] {
      assert gap + s == s;
    } else {
      assert (gap + s)[0] == gap[0];
      assert (gap + s)[1..] == gap[1..] + s;
      SplitWhitespaceGap(gap[1..], s);
    }
  }

  /** A token after leading whitespace, ended by whitespace or by the end of
      the text, is the first word. */
  lemma SplitWhitespaceFirst(gap: string, token: string, rest: string)
    requires forall i :: 0 <= i < |gap| ==> IsWhitespace(gap[i])
    requires token != [] && NoWhitespace(token)
    requires rest == [] || IsWhitespace(rest[0])
    ensures var words := SplitWhitespace(gap + token + rest); words != [] && words[0] == token
  {
    assert gap + token + rest == gap + (token + rest);
    SplitWhitespaceGap(gap, token + rest);
    SplitWhitespaceToken(token, rest);
  }

  /** A token ended by whitespace or by the end of the text is the first word. */
  lemma SplitWhitespaceToken(token: string, rest: string)
    requires token != [] && NoWhitespace(token)
    requires rest == [] || IsWhitespace(rest[0])
    ensures var words := SplitWhitespace(token + rest); words != [] && words[0] == token
  {
    var s := token + rest;
    TokenEndWhole(token, rest);
    assert s[0] == token[0];
    assert s[..|token|] == token;
  }

  /** A trailing whitespace character adds no word. */
  lemma {:induction false} SplitWhitespaceSnoc(s: string, w: char)
    requires IsWhitespace(w)
    ensures SplitWhitespace(s + [w]) == SplitWhitespace(s)
    decreases |s|
  {
    var sw := s + [w];
    if s == [] {
      assert sw[1..] == [];
    } else if IsWhitespace(s[0]) {
      assert sw[1..] == s[1..] + [w];
      SplitWhitespaceSnoc(s[1..], w);
    } else {
      var k := TokenEndSnoc(s, w);
      assert sw[..k] == s[..k];
      assert sw[k..] == s[k..] + [w];
      SplitWhitespaceSnoc(s[k..], w);
    }
  }

  /** A trailing whitespace character does not move the end of the first token. */
  lemma TokenEndSnoc(s: string, w: char) returns (k: nat)
    requires IsWhitespace(w)
    ensures k == TokenEnd(s) == TokenEnd(s + [w]) <= |s|
  {
    k := TokenEnd(s);
    if k < |s| {
      TokenEndWhole(s[..k], s[k..]);
      assert s[..k] + s[k..] == s;
      TokenEndWhole(s[..k], s[k..] + [w]);
      assert s[..k] + (s[k..] + [w]) == s + [w];
    } else {
      assert s[..k] == s;
      TokenEndWhole(s, [w]);
    }
  }

  function TrimStart(s: string): (r: string)
    ensures r == [] || !IsWhitespace(r[0])
  {
    if s != [] && IsWhitespace(s[0]) then TrimStart(s[1..]) else s
  }

  function TrimEnd(s: string): (r: string)
    ensures r == [] || !IsWhitespace(r[|r| - 1])
  {
    if s != [] && IsWhitespace(s[|s| - 1]) then TrimEnd(s[..|s| - 1]) else s
  }

  /** `str::trim`: leading and trailing whitespace removed. */
  function Trim(s: string): string {
    TrimEnd(TrimStart(s))
  }

  /** Trimming never changes the words of a text. */
  lemma {:induction false} SplitWhitespaceTrim(s: string)
    ensures SplitWhitespace(Trim(s)) == SplitWhitespace(s)
  {
    TrimStartWords(s);
    TrimEndWords(TrimStart(s));
  }

  lemma {:induction false} TrimStartWords(s: string)
    ensures SplitWhitespace(TrimStart(s)) == SplitWhitespace(s)
    decreases |s|
  {
    if s != [] && IsWhitespace(s[0]) {
      TrimStartWords(s[1..]);
    }
  }

  lemma {:induction false} TrimEndWords(s: string)
    ensures SplitWhitespace(TrimEnd(s)) == SplitWhitespace(s)
    decreases |s|
  {
    if s != [] && IsWhitespace(s[|s| - 1]) {
      var init := s[..|s| - 1];
      TrimEndWords(init);
      SplitWhitespaceSnoc(init, s[|s| - 1]);
      assert init + [s[|s| - 1]] == s;
    }
  }

  // ---------------------------------------------------------------------------
  // Integers

  function DigitValue(c: char): nat
    requires IsDigit(c)
  {
    c as int - '0' as int
  }

  function DigitChar(d: nat): (c: char)
    requires d < 10
    ensures IsDigit(c) && DigitValue(c) == d
  {
    ('0' as int + d) as char
  }

  /** The number a string of decimal digits denotes (most significant first). */
  function DigitsValue(s: string): nat
    requires AllDigits(s)
    decreases |s|
  {
    if s == [] then 0 else DigitsValue(s[..|s| - 1]) * 10 + DigitValue(s[|s| - 1])
  }

  /** Rust's `from_str` for an unsigned integer type whose largest value is
      `max`: an optional `'+'`, then one or more ASCII digits, and a value that
      fits. A sign on its own, a `'-'`, any other character and an overflow are
      all errors. */
  function ParseUnsigned(s: string, max: nat): (r: Option<nat>)
    ensures r.Some? ==> r.value <= max
  {
    if s == [] then None
    else if (s[0] == '+' || s[0] == '-') && |s| == 1 then None
    else
      var digits := if s[0] == '+' then s[1..] else s;
      if AllDigits(digits) && DigitsValue(digits) <= max then Some(DigitsValue(digits)) else None
  }

  /** `s.parse::<u64>()`. */
  function ParseU64(s: string): (r: Option<nat>)
    ensures r.Some? ==> r.value <= U64_MAX
  {
    ParseUnsigned(s, U64_MAX)
  }

  /** `s.parse::<i32>()`: as for unsigned types, but a leading `'-'` negates. */
  function ParseI32(s: string): (r: Option<int>)
    ensures r.Some? ==> I32_MIN <= r.value <= I32_MAX
  {
    if s == [] then None
    else if (s[0] == '+' || s[0] == '-') && |s| == 1 then None
    else if s[0] == '-' then
      var digits := s[1..];
      if AllDigits(digits) && DigitsValue(digits) <= -I32_MIN then
        var magnitude: int := DigitsValue(digits);
        Some(-magnitude)
      else None
    else
      var digits := if s[0] == '+' then s[1..] else s;
      if AllDigits(digits) && DigitsValue(digits) <= I32_MAX then Some(DigitsValue(digits)) else None
  }

  /** `format!("{}", n)` for an unsigned integer: decimal digits, no leading zero. */
  function NatToString(n: nat): (s: string)
    ensures s != [] && AllDigits(s) && DigitsValue(s) == n
    ensures s[0] == '0' ==> n == 0
    ensures NoWhitespace(s) && '\n' !in s && ',' !in s
    decreases n
  {
    if n < 10 then [DigitChar(n)]
    else
      var init := NatToString(n / 10);
      var s := init + [DigitChar(n % 10)];
      assert s[..|s| - 1] == init;
      s
  }

  /** Printing a `u64` and parsing it back gives the number. */
  lemma ParseU64NatToString(n: nat)
    requires n <= U64_MAX
    ensures ParseU64(NatToString(n)) == Some(n)
  {
  }

  /** Printing an `i32` that is not negative and parsing it back gives the number. */
  lemma ParseI32NatToString(n: nat)
    requires n <= I32_MAX
    ensures ParseI32(NatToString(n)) == Some(n)
  {
  }

  /** A minus sign before the digits parses back as the negated number. */
  lemma ParseI32Negative(n: nat)
    requires n <= -I32_MIN
    ensures ParseI32("-" + NatToString(n)) == Some(-(n as int))
  {
    var s := "-" + NatToString(n);
    assert s[0] == '-' && s[1..] == NatToString(n);
  }

  // ---------------------------------------------------------------------------
  // Join and split

  /** `[String]::join`: the parts with `sep` between neighbours. */
  function Join(parts: seq<string>, sep: string): (r: string)
    decreases |parts|
  {
    if |parts| == 0 then ""
    else if |parts| == 1 then parts[0]
    else parts[0] + sep + Join(parts[1..], sep)
  }

  /** A character that is in neither the parts nor the separator is not in their join. */
  lemma {:induction false} JoinAvoids(parts: seq<string>, sep: string, c: char)
    requires c !in sep
    requires forall k :: 0 <= k < |parts| ==> c !in parts[k]
    ensures c !in Join(parts, sep)
    decreases |parts|
  {
    if |parts| > 1 {
      JoinAvoids(parts[1..], sep, c);
      assert c !in parts[0];
    }
  }

  /** `sep` occurs in `s` starting at index `j`. */
  predicate OccursAt(s: string, sep: string, j: int) {
    0 <= j && j + |sep| <= |s| && s[j..j + |sep|] == sep
  }

  /** Index of the first occurrence of `sep` in `s`, or `|s|` when there is none. */
  function Find(s: string, sep: string): (i: nat)
    requires sep != []
    ensures i <= |s|
    ensures i < |s| ==> OccursAt(s, sep, i)
    ensures forall j :: 0 <= j < i ==> !OccursAt(s, sep, j)
  {
    if |s| < |sep| then |s|
    else if s[..|sep|] == sep then 0
    else
      var i := 1 + Find(s[1..], sep);
      assert !OccursAt(s, sep, 0);
      assert forall j :: 1 <= j < i ==> !OccursAt(s, sep, j) by {
        forall j | 1 <= j < i
          ensures !OccursAt(s, sep, j)
        {
          OccursAtTail(s, sep, j);
        }
      }
      i
  }

  /** An occurrence after the first character is one in the tail. */
  lemma OccursAtTail(s: string, sep: string, j: int)
    requires s != [] && 1 <= j
    ensures OccursAt(s, sep, j) <==> OccursAt(s[1..], sep, j - 1)
  {
    if j + |sep| <= |s| {
      var a, b := s[j..j + |sep|], s[1..][j - 1..j - 1 + |sep|];
      forall t | 0 <= t < |sep|
        ensures a[t] == b[t]
      {
        assert a[t] == s[j + t] && b[t] == s[j + t];
      }
      assert a == b;
    }
  }

  /** `str::split` on a non-empty separator: the pieces between occurrences. */
  function Split(s: string, sep: string): (r: seq<string>)
    requires sep != []
    ensures |r| >= 1
    decreases |s|
  {
    var i := Find(s, sep);
    if i == |s| then [s] else [s[..i]] + Split(s[i + |sep|..], sep)
  }

  /** An occurrence of `sep` starts with `sep[0]`. */
  lemma OccursAtFirst(s: string, sep: string, j: int)
    requires sep != [] && OccursAt(s, sep, j)
    ensures s[j] == sep[0]
  {
    assert s[j..j + |sep|][0] == s[j];
  }

  lemma FindAbsent(s: string, sep: string)
    requires sep != [] && sep[0] !in s
    ensures Find(s, sep) == |s|
  {
    var i := Find(s, sep);
    if i < |s| {
      OccursAtFirst(s, sep, i);
    }
  }

  lemma FindAfter(x: string, sep: string, rest: string)
    requires sep != [] && sep[0] !in x
    ensures Find(x + sep + rest, sep) == |x|
  {
    var s := x + sep + rest;
    var i := Find(s, sep);
    assert s[|x|..|x| + |sep|] == sep;
    assert OccursAt(s, sep, |x|);
    if i < |x| {
      assert s[i] == x[i];
      OccursAtFirst(s, sep, i);
    }
  }

  /** Splitting a join gives back the parts, when no part contains the
      separator's first character. */
  lemma {:induction false} SplitJoin(parts: seq<string>, sep: string)
    requires |parts| >= 1 && sep != []
    requires forall k :: 0 <= k < |parts| ==> sep[0] !in parts[k]
    ensures Split(Join(parts, sep), sep) == parts
    decreases |parts|
  {
    if |parts| == 1 {
      FindAbsent(parts[0], sep);
    } else {
      var rest := Join(parts[1..], sep);
      assert Join(parts, sep) == parts[0] + sep + rest;
      SplitCons(parts[0], sep, rest);
      assert forall k :: 0 <= k < |parts| - 1 ==> parts[1..][k] == parts[k + 1];
      SplitJoin(parts[1..], sep);
      assert parts == [parts[0]] + parts[1..];
    }
  }

  /** A first piece free of the separator's first character splits off whole. */
  lemma SplitCons(x: string, sep: string, rest: string)
    requires sep != [] && sep[0] !in x
    ensures Split(x + sep + rest, sep) == [x] + Split(rest, sep)
  {
    var s := x + sep + rest;
    FindAfter(x, sep, rest);
    assert s[..|x|] == x;
    assert s[|x| + |sep|..] == rest;
  }

  /** Joining one more part adds the separator and the part at the end. */
  lemma {:induction false} JoinSnoc(parts: seq<string>, part: string, sep: string)
    requires |parts| >= 1
    ensures Join(parts + [part], sep) == Join(parts, sep) + sep + part
    decreases |parts|
  {
    var all := parts + [part];
    if |parts| > 1 {
      assert all[1..] == parts[1..] + [part];
      JoinSnoc(parts[1..], part, sep);
    } else {
      assert all[1..] == [part];
    }
  }

  /** A line that `str::lines` gives back unchanged: no line break inside and
      no carriage return at the end. */
  predicate PlainLine(line: string) {
    '\n' !in line && (line == [] || line[|line| - 1] != '\r')
  }

  /** A numeral is a plain line. */
  lemma DigitsPlain(s: string)
    requires s != [] && AllDigits(s)
    ensures PlainLine(s)
  {
    assert IsDigit(s[|s| - 1]);
    assert forall i :: 0 <= i < |s| ==> s[i] != '\n' by {
      forall i | 0 <= i < |s| ensures s[i] != '\n' { assert IsDigit(s[i]); }
    }
  }

  /** Text without line breaks before a non-empty plain line gives a plain line. */
  lemma PlainAppend(a: string, b: string)
    requires '\n' !in a && b != [] && PlainLine(b)
    ensures PlainLine(a + b)
  {
    assert (a + b)[|a + b| - 1] == b[|b| - 1];
  }

  predicate AllPlain(lines: seq<string>) {
    forall k :: 0 <= k < |lines| ==> PlainLine(lines[k])
  }

  /** One more plain line keeps all lines plain. */
  lemma PlainSnoc(lines: seq<string>, line: string)
    requires AllPlain(lines) && PlainLine(line)
    ensures AllPlain(lines + [line])
  {
    var all := lines + [line];
    forall k | 0 <= k < |all|
      ensures PlainLine(all[k])
    {
      if k < |lines| {
        assert all[k] == lines[k];
      }
    }
  }

  /** Plain lines, each ended by a line break, are read back by `Lines`. */
  lemma {:induction false} LinesOfTerminated(lines: seq<string>)
    requires |lines| >= 1
    requires forall k :: 0 <= k < |lines| ==> PlainLine(lines[k])
    ensures Lines(Join(lines, "\n") + "\n") == lines
    decreases |lines|
  {
    if |lines| == 1 {
      LinesCons(lines[0], "");
      assert lines[0] + "\n" + "" == lines[0] + "\n";
    } else {
      var j := Join(lines[1..], "\n");
      assert Join(lines, "\n") == lines[0] + "\n" + j;
      assert lines[0] + "\n" + j + "\n" == lines[0] + "\n" + (j + "\n");
      LinesCons(lines[0], j + "\n");
      LinesOfTerminated(lines[1..]);
      assert lines == [lines[0]] + lines[1..];
    }
  }

  /** A title line, a blank line, plain body lines and a blank line, each
      ended by a line break, are read back by `Lines`. */
  lemma LinesFramed(title: string, body: seq<string>)
    requires PlainLine(title) && |body| >= 1 && AllPlain(body)
    ensures Lines(title + "\n" + "\n" + Join(body, "\n") + "\n" + "\n") == [title, ""] + body + [""]
  {
    var j := Join(body, "\n");
    var a := j + "\n" + "\n";
    LinesBlankAfter(body);
    LinesBlank(a);
    LinesCons(title, "\n" + a);
    var nl := "\n";
    Concat5(title, nl, nl, j, nl, nl);
    FramedLines(title, body);
  }

  /** Plain lines followed by an empty line, each ended by a line break. */
  lemma LinesBlankAfter(body: seq<string>)
    requires |body| >= 1 && AllPlain(body)
    ensures Lines(Join(body, "\n") + "\n" + "\n") == body + [""]
  {
    var j := Join(body, "\n");
    var tail := body + [""];
    JoinSnoc(body, "", "\n");
    assert j + "\n" + "" == j + "\n";
    PlainSnoc(body, "");
    LinesOfTerminated(tail);
  }

  lemma FramedLines(title: string, body: seq<string>)
    ensures [title] + ([""] + (body + [""])) == [title, ""] + body + [""]
  {
    var lhs, rhs := [title] + ([""] + (body + [""])), [title, ""] + body + [""];
    forall k | 0 <= k < |lhs|
      ensures lhs[k] == rhs[k]
    {
      if 2 <= k < 2 + |body| {
        assert lhs[k] == body[k - 2];
      }
    }
    assert |lhs| == |rhs|;
  }

  /** Concatenation regrouped: `a + b + c + d + e + f` is `a + b + (c + (d + e + f))`. */
  lemma Concat5(a: string, b: string, c: string, d: string, e: string, f: string)
    ensures a + b + c + d + e + f == a + b + (c + (d + e + f))
  {
    assert a + b + c + d == (a + b) + (c + d);
    assert (a + b) + (c + d) + e == (a + b) + (c + d + e);
    assert (a + b) + (c + d + e) + f == (a + b) + (c + d + e + f);
    assert c + d + e + f == c + (d + e + f);
  }

  /** A leading line break is an empty first line. */
  lemma LinesBlank(b: string)
    ensures Lines("\n" + b) == [""] + Lines(b)
  {
    var s := "\n" + b;
    assert s[0] == '\n' && IndexOf(s, '\n') == 0;
    assert s[1..] == b;
  }

  /** Plain lines joined by line breaks, the last not empty, are read back by `Lines`. */
  lemma {:induction false} LinesOfJoined(lines: seq<string>)
    requires |lines| >= 1 && lines[|lines| - 1] != []
    requires forall k :: 0 <= k < |lines| ==> PlainLine(lines[k])
    ensures Lines(Join(lines, "\n")) == lines
    decreases |lines|
  {
    if |lines| == 1 {
      LinesSingle(lines[0]);
    } else {
      var rest := Join(lines[1..], "\n");
      assert Join(lines, "\n") == lines[0] + "\n" + rest;
      assert PlainLine(lines[0]);
      assert StripCarriageReturn(lines[0]) == lines[0];
      LinesCons(lines[0], rest);
      LinesOfJoined(lines[1..]);
      assert lines == [lines[0]] + lines[1..];
    }
  }
}
