/**
 * The handful of Python string operations the tools and the agent rely on:
 * `str.isspace`/`str.strip`, `str.startswith`, `str.split` on one character,
 * `sep.join`, `str(int)` and `int(str)` in base 10, and zero padding as
 * `strftime` prints numbers.
 */
module Text {
  import opened Wrappers

  /** Python's `str.isspace` for one character: the characters `str.strip()` removes. */
  predicate IsSpace(c: char) {
    || ('\t' <= c <= '\r')
    || ('\U{1C}' <= c <= '\U{1F}')
    || c == ' '
    || c == '\U{85}'
    || c == '\U{A0}'
    || c == '\U{1680}'
    || ('\U{2000}' <= c <= '\U{200A}')
    || c == '\U{2028}'
    || c == '\U{2029}'
    || c == '\U{202F}'
    || c == '\U{205F}'
    || c == '\U{3000}'
  }

  predicate IsDigit(c: char) {
    '0' <= c <= '9'
  }

  /** Python's `s.startswith(prefix)`. */
  predicate StartsWith(s: string, prefix: string) {
    prefix <= s
  }

  // ---------------------------------------------------------------- strip

  /**
   * The characters `int()` skips around a numeral: ASCII blank space
   * (`\t\n\v\f\r` and the space) and the non-ASCII whitespace, but not the
   * information separators U+001C to U+001F, which `str.isspace` accepts.
   */
  predicate IsIntSpace(c: char) {
    IsSpace(c) && !('\U{1C}' <= c <= '\U{1F}')
  }

  /** `s.lstrip()` for the whitespace `space`: the longest suffix of `s` that does not begin with it. */
  function TrimStart(s: string, space: char -> bool): (r: string)
    ensures |r| <= |s| && r == s[|s| - |r|..]
    ensures forall i :: 0 <= i < |s| - |r| ==> space(s[i])
    ensures r == [] || !space(r[0])
  {
    if s != [] && space(s[0]) then
      var r := TrimStart(s[1..], space);
      assert forall i :: 1 <= i < |s| - |r| ==> s[i] == s[1..][i - 1];
      r
    else
      s
  }

  /** `s.rstrip()` for the whitespace `space`: the longest prefix of `s` that does not end with it. */
  function TrimEnd(s: string, space: char -> bool): (r: string)
    ensures |r| <= |s| && r == s[..|r|]
    ensures forall i :: |r| <= i < |s| ==> space(s[i])
    ensures r == [] || !space(r[|r| - 1])
  {
    if s != [] && space(s[|s| - 1]) then
      var r := TrimEnd(s[..|s| - 1], space);
      assert forall i :: |r| <= i < |s| - 1 ==> s[i] == s[..|s| - 1][i];
      r
    else
      s
  }

  /** Python's `s.strip()` with no argument. */
  function Strip(s: string): (r: string)
    ensures |r| <= |s|
    ensures r == [] || (!IsSpace(r[0]) && !IsSpace(r[|r| - 1]))
    ensures (s == [] || (!IsSpace(s[0]) && !IsSpace(s[|s| - 1]))) ==> r == s
  {
    TrimEnd(TrimStart(s, IsSpace), IsSpace)
  }

  /** The text `int()` reads: `s` without the surrounding characters it skips. */
  function IntStrip(s: string): (r: string)
    ensures |r| <= |s|
    ensures r == [] || (!IsIntSpace(r[0]) && !IsIntSpace(r[|r| - 1]))
    ensures (s == [] || (!IsIntSpace(s[0]) && !IsIntSpace(s[|s| - 1]))) ==> r == s
  {
    TrimEnd(TrimStart(s, IsIntSpace), IsIntSpace)
  }

  /** Trimming removes nothing but the whitespace: every other character stays. */
  lemma TrimmedKeeps(s: string, space: char -> bool)
    ensures forall i :: 0 <= i < |s| ==> space(s[i]) || s[i] in TrimEnd(TrimStart(s, space), space)
  {
    var u := TrimStart(s, space);
    var r := TrimEnd(u, space);
    forall i | 0 <= i < |s| && !space(s[i])
      ensures s[i] in r
    {
      var j := i - (|s| - |u|);
      assert 0 <= j < |u| && u[j] == s[i];
      assert j < |r| && r[j] == s[i];
    }
  }

  predicate AllSpace(s: string) {
    forall i :: 0 <= i < |s| ==> IsSpace(s[i])
  }

  /** `space` holds of every character of `s`. */
  predicate AllOf(s: string, space: char -> bool) {
    forall i :: 0 <= i < |s| ==> space(s[i])
  }

  lemma AllOfAppend(a: string, b: string, space: char -> bool)
    requires AllOf(a, space) && AllOf(b, space)
    ensures AllOf(a + b, space)
  {
    assert forall i :: |a| <= i < |a + b| ==> (a + b)[i] == b[i - |a|];
  }

  lemma {:induction false} TrimStartSpaces(pre: string, rest: string, space: char -> bool)
    requires AllOf(pre, space)
    requires rest == [] || !space(rest[0])
    ensures TrimStart(pre + rest, space) == rest
  {
    if pre != [] {
      assert (pre + rest)[1..] == pre[1..] + rest;
      TrimStartSpaces(pre[1..], rest, space);
    }
  }

  lemma {:induction false} TrimEndSpaces(core: string, post: string, space: char -> bool)
    requires AllOf(post, space)
    requires core == [] || !space(core[|core| - 1])
    ensures TrimEnd(core + post, space) == core
  {
    if post != [] {
      assert (core + post)[..|core + post| - 1] == core + post[..|post| - 1];
      TrimEndSpaces(core, post[..|post| - 1], space);
    } else {
      assert core + post == core;
    }
  }

  /**
   * `strip` removes exactly the surrounding whitespace: whatever the
   * whitespace around a core that neither begins nor ends with whitespace,
   * the core is what remains.
   */
  lemma StripSurrounded(pre: string, core: string, post: string)
    requires AllSpace(pre) && AllSpace(post)
    requires core == [] || (!IsSpace(core[0]) && !IsSpace(core[|core| - 1]))
    ensures Strip(pre + core + post) == core
  {
    assert pre + core + post == pre + (core + post);
    assert AllOf(pre, IsSpace) && AllOf(post, IsSpace);
    if core == [] {
      assert core + post == post;
      assert AllOf(pre + post, IsSpace);
      TrimStartSpaces(pre + post, [], IsSpace);
      assert pre + post + [] == pre + post;
    } else {
      TrimStartSpaces(pre, core + post, IsSpace);
      TrimEndSpaces(core, post, IsSpace);
    }
  }

  // ---------------------------------------------------------------- split and join

  /** Python's `s.split(sep)` for a one-character separator. */
  function Split(s: string, sep: char): (r: seq<string>)
    ensures |r| >= 1
    ensures forall k :: 0 <= k < |r| ==> sep !in r[k]
  {
    if s == [] then
      [[]]
    else
      var rest := Split(s[1..], sep);
      if s[0] == sep then [[]] + rest else [[s[0]] + rest[0]] + rest[1..]
  }

  /** Python's `sep.join(parts)`. */
  function Join(parts: seq<string>, sep: string): string {
    if |parts| == 0 then []
    else if |parts| == 1 then parts[0]
    else parts[0] + sep + Join(parts[1..], sep)
  }

  /** The text of `s` before the first `sep`, or all of `s` when there is none. */
  function TakeUntil(s: string, sep: char): (r: string)
    ensures r <= s && sep !in r
    ensures |r| == |s| || s[|r|] == sep
  {
    if s == [] || s[0] == sep then [] else [s[0]] + TakeUntil(s[1..], sep)
  }

  /** Joining the pieces of a split with the separator gives back the string. */
  lemma {:induction false} JoinOfSplit(s: string, sep: char)
    ensures Join(Split(s, sep), [sep]) == s
  {
    if s != [] {
      var rest := Split(s[1..], sep);
      JoinOfSplit(s[1..], sep);
      if s[0] == sep {
        assert ([[]] + rest)[1..] == rest;
      } else if |rest| > 1 {
        assert ([[s[0]] + rest[0]] + rest[1..])[1..] == rest[1..];
      }
    }
  }

  lemma {:induction false} SplitWithoutSeparator(s: string, sep: char)
    requires sep !in s
    ensures Split(s, sep) == [s]
  {
    if s != [] {
      SplitWithoutSeparator(s[1..], sep);
      assert [s[0]] + s[1..] == s;
    }
  }

  /** The first piece of a split is the text before the first separator. */
  lemma {:induction false} SplitHead(s: string, sep: char)
    ensures Split(s, sep)[0] == TakeUntil(s, sep)
  {
    if s != [] && s[0] != sep {
      SplitHead(s[1..], sep);
    }
  }

  /** A separator-free head splits off as the first piece. */
  lemma {:induction false} SplitAfter(a: string, sep: char, b: string)
    requires sep !in a
    ensures Split(a + [sep] + b, sep) == [a] + Split(b, sep)
  {
    var s := a + [sep] + b;
    if a == [] {
      assert s[1..] == b;
    } else {
      assert s[1..] == a[1..] + [sep] + b;
      SplitAfter(a[1..], sep, b);
      assert [a[0]] + a[1..] == a;
    }
  }

  /** One step of `split`: a leading separator starts a new piece, any other character joins the first piece. */
  lemma SplitCons(c: char, rest: string, sep: char)
    ensures Split([c] + rest, sep)
         == if c == sep then [[]] + Split(rest, sep) else [[c] + Split(rest, sep)[0]] + Split(rest, sep)[1..]
  {
    assert ([c] + rest)[1..] == rest;
  }

  /** Splitting two texts joined by the separator gives the pieces of each. */
  lemma {:induction false} SplitConcat(x: string, sep: char, y: string)
    ensures Split(x + [sep] + y, sep) == Split(x, sep) + Split(y, sep)
    decreases |x|
  {
    if x == [] {
      SplitCons(sep, y, sep);
      assert x + [sep] + y == [sep] + y;
    } else {
      SplitConcat(x[1..], sep, y);
      SplitConcatStep(x[0], x[1..], sep, y);
      assert [x[0]] + x[1..] == x;
      assert x + [sep] + y == [x[0]] + (x[1..] + [sep] + y);
    }
  }

  lemma SplitConcatStep(c: char, tail: string, sep: char, y: string)
    requires Split(tail + [sep] + y, sep) == Split(tail, sep) + Split(y, sep)
    ensures Split([c] + (tail + [sep] + y), sep) == Split([c] + tail, sep) + Split(y, sep)
  {
    SplitCons(c, tail + [sep] + y, sep);
    SplitCons(c, tail, sep);
    FirstPieceGrows(c, sep, Split([c] + (tail + [sep] + y), sep), Split([c] + tail, sep),
      Split(tail, sep), Split(y, sep), Split(tail + [sep] + y, sep));
  }

  /** The sequence algebra of one `split` step, over the pieces themselves. */
  lemma FirstPieceGrows(c: char, sep: char, whole: seq<string>, left: seq<string>,
                        front: seq<string>, back: seq<string>, joined: seq<string>)
    requires |front| >= 1 && joined == front + back
    requires whole == if c == sep then [[]] + joined else [[c] + joined[0]] + joined[1..]
    requires left == if c == sep then [[]] + front else [[c] + front[0]] + front[1..]
    ensures whole == left + back
  {
    if c != sep {
      assert joined[0] == front[0];
      assert joined[1..] == front[1..] + back;
    }
  }

  /** A separator-free tail splits off as the last piece. */
  lemma {:induction false} SplitBefore(a: string, sep: char, b: string)
    requires sep !in b
    ensures |Split(a + [sep] + b, sep)| >= 2
    ensures Split(a + [sep] + b, sep)[|Split(a + [sep] + b, sep)| - 1] == b
  {
    var s := a + [sep] + b;
    if a == [] {
      assert s[1..] == b;
      SplitWithoutSeparator(b, sep);
    } else {
      assert s[1..] == a[1..] + [sep] + b;
      SplitBefore(a[1..], sep, b);
    }
  }

  /** Text between a separator-free first line and a separator-free last line keeps both lines. */
  lemma OuterLines(head: string, middle: string, tail: string, sep: char)
    requires sep !in head && sep !in tail
    ensures var lines := Split(head + [sep] + middle + [sep] + tail, sep);
      |lines| >= 2 && lines[0] == head && lines[|lines| - 1] == tail
  {
    var s := head + [sep] + middle + [sep] + tail;
    assert s == head + [sep] + (middle + [sep] + tail);
    SplitAfter(head, sep, middle + [sep] + tail);
    SplitBefore(head + [sep] + middle, sep, tail);
  }

  /** Two separator-free fields, each followed by the separator, where one text prefixes the other, are the same field. */
  lemma FieldBeforeSeparator(word: string, field: string, rest: string, sep: char)
    requires sep !in word && sep !in field
    requires word + [sep] <= field + [sep] + rest
    ensures field == word
  {
    var q := field + [sep] + rest;
    var tail := q[|word| + 1..];
    assert q == word + [sep] + tail;
    SplitAfter(field, sep, rest);
    SplitAfter(word, sep, tail);
    assert Split(q, sep)[0] == field && Split(q, sep)[0] == word;
  }

  /** Splitting a join of separator-free pieces gives back the pieces. */
  lemma {:induction false} SplitOfJoin(parts: seq<string>, sep: char)
    requires |parts| >= 1
    requires forall k :: 0 <= k < |parts| ==> sep !in parts[k]
    ensures Split(Join(parts, [sep]), sep) == parts
  {
    if |parts| == 1 {
      SplitWithoutSeparator(parts[0], sep);
    } else {
      SplitOfJoin(parts[1..], sep);
      SplitAfter(parts[0], sep, Join(parts[1..], [sep]));
      assert [parts[0]] + parts[1..] == parts;
    }
  }

  // ---------------------------------------------------------------- integers

  function DigitChar(d: nat): (c: char)
    requires d < 10
    ensures IsDigit(c)
  {
    (48 + d) as char
  }

  function DigitValue(c: char): (d: nat)
    requires IsDigit(c)
    ensures d < 10
  {
    (c as int) - 48
  }

  /** The decimal digits of `n`, without leading zeros. */
  function NatToString(n: nat): (r: string)
    ensures |r| >= 1
    ensures forall i :: 0 <= i < |r| ==> IsDigit(r[i])
  {
    if n < 10 then [DigitChar(n)] else NatToString(n / 10) + [DigitChar(n % 10)]
  }

  /** Python's `str(n)` (and `f"{n}"`) for an integer. */
  function IntToString(n: int): string {
    if n < 0 then "-" + NatToString(-n) else NatToString(n)
  }

  predicate IsNumeralChar(c: char) {
    IsDigit(c) || c == '_'
  }

  /** Digits with single underscores between them, the body `int()` accepts after the sign. */
  predicate IsNumeral(s: string) {
    && |s| > 0
    && IsDigit(s[0])
    && IsDigit(s[|s| - 1])
    && (forall i :: 0 <= i < |s| ==> IsNumeralChar(s[i]))
    && (forall i :: 0 <= i < |s| - 1 ==> s[i] == '_' ==> IsDigit(s[i + 1]))
  }

  /** The value of a numeral, read in base 10 with the underscores skipped. */
  function NumeralValue(s: string): nat
    requires forall i :: 0 <= i < |s| ==> IsNumeralChar(s[i])
  {
    if s == [] then 0
    else
      var last := s[|s| - 1];
      assert IsNumeralChar(last);
      if last == '_' then NumeralValue(s[..|s| - 1])
      else 10 * NumeralValue(s[..|s| - 1]) + DigitValue(last)
  }

  /** Only characters `int()` can accept: its whitespace, digits, underscores and signs. */
  predicate IntLike(s: string) {
    forall i :: 0 <= i < |s| ==> IsIntSpace(s[i]) || IsNumeralChar(s[i]) || s[i] == '+' || s[i] == '-'
  }

  /**
   * Python's `int(s)` in base 10 over ASCII digits: the whitespace `int`
   * skips is ignored around the numeral, one optional sign, underscores only
   * between digits. `None` is where `int` raises `ValueError`.
   */
  function ParseInt(s: string): (r: Option<int>)
    ensures r.Some? ==> IntLike(s)
  {
    var t := IntStrip(s);
    TrimmedKeeps(s, IsIntSpace);
    var r := ParseSigned(t);
    if r.None? then
      r
    else if t[0] == '+' || t[0] == '-' then
      SignedNumeralIntLike(s, t);
      r
    else
      NumeralIntLike(s, t);
      r
  }

  /** What `int()` reads once the whitespace around the text is gone: an optional sign, then a numeral. */
  function ParseSigned(t: string): (r: Option<int>)
    ensures r.Some? ==> t != []
    ensures r.Some? && (t[0] == '+' || t[0] == '-') ==> IsNumeral(t[1..])
    ensures r.Some? && t[0] != '+' && t[0] != '-' ==> IsNumeral(t)
  {
    if t != [] && (t[0] == '+' || t[0] == '-') then
      if IsNumeral(t[1..]) then
        var magnitude: int := NumeralValue(t[1..]);
        Some(if t[0] == '-' then -magnitude else magnitude)
      else
        None
    else if IsNumeral(t) then
      Some(NumeralValue(t))
    else
      None
  }

  lemma NumeralIntLike(s: string, t: string)
    requires forall i :: 0 <= i < |s| ==> IsIntSpace(s[i]) || s[i] in t
    requires IsNumeral(t)
    ensures IntLike(s)
  {
    assert forall c :: c in t ==> IsNumeralChar(c);
  }

  lemma SignedNumeralIntLike(s: string, t: string)
    requires forall i :: 0 <= i < |s| ==> IsIntSpace(s[i]) || s[i] in t
    requires t != [] && (t[0] == '+' || t[0] == '-') && IsNumeral(t[1..])
    ensures IntLike(s)
  {
    assert forall c :: c in t ==> IsNumeralChar(c) || c == '+' || c == '-' by {
      forall c | c in t
        ensures IsNumeralChar(c) || c == '+' || c == '-'
      {
        var k :| 0 <= k < |t| && t[k] == c;
        if k > 0 {
          assert t[1..][k - 1] == c;
        }
      }
    }
  }

  lemma {:induction false} NumeralValueOfNatToString(n: nat)
    ensures NumeralValue(NatToString(n)) == n
  {
    if n >= 10 {
      var s := NatToString(n);
      assert s[..|s| - 1] == NatToString(n / 10);
      NumeralValueOfNatToString(n / 10);
    }
  }

  lemma NatToStringIsNumeral(n: nat)
    ensures IsNumeral(NatToString(n))
    ensures NumeralValue(NatToString(n)) == n
  {
    var digits := NatToString(n);
    assert forall i :: 0 <= i < |digits| ==> IsNumeralChar(digits[i]);
    NumeralValueOfNatToString(n);
  }

  /** A printed integer neither begins nor ends with whitespace `int()` would skip. */
  lemma IntToStringEnds(n: int)
    ensures !IsIntSpace(IntToString(n)[0]) && !IsIntSpace(IntToString(n)[|IntToString(n)| - 1])
  {
    var s := IntToString(n);
    assert !IsIntSpace(s[0]) by {
      assert s[0] == '-' || IsDigit(s[0]);
    }
    assert !IsIntSpace(s[|s| - 1]) by {
      assert IsDigit(s[|s| - 1]);
    }
  }

  /** A printed integer has no whitespace around it for `int()` to skip. */
  lemma IntStripOfIntToString(n: int)
    ensures IntStrip(IntToString(n)) == IntToString(n)
  {
    IntToStringEnds(n);
  }

  /** `int(str(n)) == n`: printing an integer and parsing it back is the identity. */
  lemma ParseIntOfIntToString(n: int)
    ensures ParseInt(IntToString(n)) == Some(n)
  {
    var s := IntToString(n);
    IntStripOfIntToString(n);
    if n < 0 {
      NatToStringIsNumeral(-n);
      assert s[1..] == NatToString(-n);
    } else {
      NatToStringIsNumeral(n);
      assert s[0] != '-' && s[0] != '+';
    }
  }

  /** A printed integer contains neither a colon nor a line break. */
  lemma IntToStringShape(n: int)
    ensures ':' !in IntToString(n)
    ensures '\n' !in IntToString(n)
  {
    var s := IntToString(n);
    assert forall i :: 0 <= i < |s| ==> s[i] == '-' || IsDigit(s[i]);
  }

  /** `int()` reads a printed integer back through any whitespace it skips around it. */
  lemma ParseIntSurrounded(pre: string, n: int, post: string)
    requires AllOf(pre, IsIntSpace) && AllOf(post, IsIntSpace)
    ensures ParseInt(pre + IntToString(n) + post) == Some(n)
  {
    IntToStringEnds(n);
    IntStripOfIntToString(n);
    IntStripSurrounded(pre, IntToString(n), post);
    SameIntText(pre + IntToString(n) + post, IntToString(n));
    ParseIntOfIntToString(n);
  }

  lemma IntStripSurrounded(pre: string, core: string, post: string)
    requires AllOf(pre, IsIntSpace) && AllOf(post, IsIntSpace)
    requires core == [] || (!IsIntSpace(core[0]) && !IsIntSpace(core[|core| - 1]))
    ensures IntStrip(pre + core + post) == core
  {
    assert pre + core + post == pre + (core + post);
    if core == [] {
      AllOfAppend(pre, post, IsIntSpace);
      TrimStartSpaces(pre + post, [], IsIntSpace);
      assert pre + post + [] == pre + post;
    } else {
      TrimStartSpaces(pre, core + post, IsIntSpace);
      TrimEndSpaces(core, post, IsIntSpace);
    }
  }

  /** `int()` sees only the text within the whitespace it skips. */
  lemma SameIntText(s: string, s': string)
    requires IntStrip(s) == IntStrip(s')
    ensures ParseInt(s) == ParseInt(s')
  {
  }

  /**
   * An information separator (U+001C to U+001F) in front of a numeral is
   * whitespace to `strip()` but not to `int()`, which refuses the text.
   */
  lemma SeparatorNotSkipped(c: char, rest: string)
    requires '\U{1C}' <= c <= '\U{1F}'
    ensures Strip([c] + rest) == Strip(rest)
    ensures ParseInt([c] + rest) == None
  {
    SeparatorStripped(c, rest);
    SeparatorKept(c, rest);
    RefusedAfterSeparator(IntStrip([c] + rest), [c] + rest);
  }

  lemma SeparatorStripped(c: char, rest: string)
    requires '\U{1C}' <= c <= '\U{1F}'
    ensures Strip([c] + rest) == Strip(rest)
  {
    var s := [c] + rest;
    assert s != [] && s[0] == c && IsSpace(c);
    assert s[1..] == rest;
    assert TrimStart(s, IsSpace) == TrimStart(s[1..], IsSpace);
  }

  lemma SeparatorKept(c: char, rest: string)
    requires '\U{1C}' <= c <= '\U{1F}'
    ensures IntStrip([c] + rest) != [] && IntStrip([c] + rest)[0] == c
  {
    assert TrimStart([c] + rest, IsIntSpace) == [c] + rest;
  }

  lemma RefusedAfterSeparator(t: string, s: string)
    requires IntStrip(s) == t && t != [] && '\U{1C}' <= t[0] <= '\U{1F}'
    ensures ParseInt(s) == None
  {
  }

  // ---------------------------------------------------------------- zero padding

  function Pow10(k: nat): nat {
    if k == 0 then 1 else 10 * Pow10(k - 1)
  }

  function Zeros(k: nat): string {
    seq(k, _ => '0')
  }

  /** The decimal digits of `n`, padded on the left with zeros to at least `width` characters. */
  function ZeroPad(n: nat, width: nat): (r: string)
    ensures |r| >= width
    ensures forall i :: 0 <= i < |r| ==> IsDigit(r[i])
  {
    var digits := NatToString(n);
    if |digits| >= width then digits else Zeros(width - |digits|) + digits
  }

  lemma {:induction false} NatToStringLength(n: nat, k: nat)
    requires 1 <= k && n < Pow10(k)
    ensures |NatToString(n)| <= k
  {
    if n >= 10 {
      assert k >= 2;
      NatToStringLength(n / 10, k - 1);
    }
  }

  lemma {:induction false} LeadingZerosValue(k: nat, s: string)
    requires forall i :: 0 <= i < |s| ==> IsNumeralChar(s[i])
    ensures forall i :: 0 <= i < |Zeros(k) + s| ==> IsNumeralChar((Zeros(k) + s)[i])
    ensures NumeralValue(Zeros(k) + s) == NumeralValue(s)
    decreases |s|, k
  {
    var t := Zeros(k) + s;
    if s == [] {
      assert t == Zeros(k);
      if k > 0 {
        assert t[..|t| - 1] == Zeros(k - 1) + [];
        LeadingZerosValue(k - 1, []);
      }
    } else {
      assert t[..|t| - 1] == Zeros(k) + s[..|s| - 1];
      LeadingZerosValue(k, s[..|s| - 1]);
    }
  }

  /** A zero-padded number has exactly `width` digits when it fits, and reads back as the number. */
  lemma ZeroPadValue(n: nat, width: nat)
    requires 1 <= width && n < Pow10(width)
    ensures |ZeroPad(n, width)| == width
    ensures NumeralValue(ZeroPad(n, width)) == n
  {
    NatToStringLength(n, width);
    NumeralValueOfNatToString(n);
    var digits := NatToString(n);
    if |digits| < width {
      LeadingZerosValue(width - |digits|, digits);
    }
  }

  // ---------------------------------------------------------------- exception texts

  /** Python's `repr` of a string, without the escaping of quotes and control characters. */
  function Repr(s: string): string {
    "'" + s + "'"
  }

  /** The quoted text lies between two single quotes, unchanged. */
  lemma ReprQuotes(s: string)
    ensures |Repr(s)| == |s| + 2
    ensures Repr(s)[0] == '\'' && Repr(s)[|s| + 1] == '\''
    ensures Repr(s)[1..|s| + 1] == s
  {
  }

  /** The first `n` characters of `s`, as the `%.200R` conversion of CPython's messages keeps. */
  function Truncate(s: string, n: nat): (r: string)
    ensures r <= s && |r| == (if |s| <= n then |s| else n)
  {
    if |s| <= n then s else s[..n]
  }
}
